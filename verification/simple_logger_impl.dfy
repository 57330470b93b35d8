/**
 * `SimpleLoggerImpl`: the logger of the simple pipeline. Every line is the
 * timestamp, the level name right-aligned in six columns, the abbreviated
 * logger name in brackets, the message and a newline, followed by the
 * cause's stack trace when there is one. Direct emissions never flush; a
 * batch drain flushes once when auto-flush is on.
 */
module SimpleLoggerImpl {
  import opened Wrappers
  import opened Levels
  import opened Dates
  import opened Collaborators
  import opened Api
  import opened SimpleLogEvent

  /** What a logger fixes at construction: abbreviated name, zone, locale and auto-flush. */
  datatype Config = Config(name: string, zone: Zone, locale: Locale, autoFlush: bool)

  /** A logger: its configuration and its current, adjustable level. */
  datatype Logger = Logger(config: Config, level: Level)

  /** `getLevel()`. */
  function GetLevel(g: Logger): Level
  {
    g.level
  }

  /**
   * `setLevel(level)`: a null level throws before anything changes;
   * otherwise the new level is swapped in and the previous one returned.
   */
  function SetLevel(g: Logger, level: Option<Level>): (o: Outcome<(Level, Logger)>)
    ensures o.Rejected? <==> level.None?
    ensures o.value.0 == GetLevel(g) && o.value.1.config == g.config
    ensures o.Rejected? ==> o.value.1 == g
    ensures o.Returned? ==> GetLevel(o.value.1) == level.value
  {
    match level
    case None => Rejected((g.level, g))
    case Some(l) => Returned((g.level, g.(level := l)))
  }

  /** The gate against the current level, for a level known not to be null. */
  predicate LoggerIsEnabled(g: Logger, l: Level)
  {
    IsEnabled(l, g.level)
  }

  /**
   * `isEnabled(level)`: a null level throws (the answer carried then is
   * meaningless); otherwise the level's ordinal is compared with the
   * ordinal of the level `getLevel` reports.
   */
  function Enabled(g: Logger, level: Option<Level>): (o: Outcome<bool>)
    ensures o.Rejected? <==> level.None?
    ensures o.Returned? ==> (o.value <==> Ordinal(level.value) <= Ordinal(GetLevel(g)))
  {
    match level
    case None => Rejected(false)
    case Some(l) => Returned(LoggerIsEnabled(g, l))
  }

  /** After `setLevel(l)`, `isEnabled` answers by `l` alone, whatever the level was before. */
  lemma GateFollowsSetLevel(g: Logger, l: Level, asked: Level)
    ensures var g' := SetLevel(g, Some(l)).value.1;
      Enabled(g', Some(asked)) == Returned(IsEnabled(asked, l))
  {
  }

  /**
   * The layout of a line prefix, read by position: 28 columns of timestamp,
   * the level name right-aligned up to column 34, ` [`, the logger name and `] `.
   */
  predicate IsPrefix(p: string, date: string, level: Level, name: string)
  {
    var n := |Name(level)|;
    && |date| == 28
    && |p| == 38 + |name|
    && p[..28] == date
    && (forall i | 28 <= i < 34 - n :: p[i] == ' ')
    && p[34 - n..34] == Name(level)
    && p[34..36] == " ["
    && p[36..36 + |name|] == name
    && p[36 + |name|..] == "] "
  }

  /** A whole line: the prefix, the message, the line separator and then the stack trace. */
  predicate IsLine(line: string, date: string, level: Level, name: string, text: string, trace: string)
  {
    var m := 38 + |name|;
    && |line| == m + |text| + |NL| + |trace|
    && IsPrefix(line[..m], date, level, name)
    && line[m..m + |text|] == text
    && line[m + |text|..m + |text| + |NL|] == NL
    && line[m + |text| + |NL|..] == trace
  }

  /** ERROR and DEBUG get one space of padding, WARN and INFO get two. */
  lemma PaddingWidth(p: string, date: string, level: Level, name: string)
    requires IsPrefix(p, date, level, name)
    ensures p[28] == ' '
    ensures p[29] == ' ' <==> level in {WARN, INFO, NONE}
  {
    if |Name(level)| == 5 {
      assert p[29] == p[29..34][0] == Name(level)[0];
    }
  }

  /** `writePrefix`: timestamp, padded level name and bracketed logger name. */
  function Prefix(env: Env, c: Config, now: Instant, level: Level): (r: string)
    ensures |r| == 38 + |c.name|
  {
    var lname := Name(level);
    FormatDate(env.fields(now, c.zone)) + "  "[..6 - |lname|] + lname + " [" + c.name + "] "
  }

  /** The prefix has the layout `IsPrefix` describes, around the timestamp of the call. */
  lemma PrefixIsLaidOut(env: Env, c: Config, now: Instant, level: Level)
    ensures IsPrefix(Prefix(env, c, now, level), FormatDate(env.fields(now, c.zone)), level, c.name)
  {
    PrefixLayout(FormatDate(env.fields(now, c.zone)), level, c.name);
  }

  lemma PrefixLayout(date: string, level: Level, name: string)
    requires |date| == 28
    ensures var lname := Name(level);
      IsPrefix(date + "  "[..6 - |lname|] + lname + " [" + name + "] ", date, level, name)
  {
    var lname := Name(level);
    var pad := "  "[..6 - |lname|];
    var r := date + pad + lname + " [" + name + "] ";
    assert r[..28] == date;
    assert forall i | 28 <= i < 34 - |lname| :: r[i] == pad[i - 28] == ' ';
    assert r[34 - |lname|..34] == lname;
    assert r[34..36] == " [";
    assert r[36..36 + |name|] == name;
    assert r[36 + |name|..] == "] ";
  }

  /** One emission: prefix, message, line separator, then the stack trace if a cause is given. */
  function Line(env: Env, c: Config, now: Instant, level: Level, text: string, cause: Option<Throwable>): (r: string)
  {
    Prefix(env, c, now, level) + text + NL + Trace(env, cause)
  }

  /** The line has the layout `IsLine` describes: prefix, message, separator, stack trace. */
  lemma LineIsLaidOut(env: Env, c: Config, now: Instant, level: Level, text: string, cause: Option<Throwable>)
    ensures IsLine(Line(env, c, now, level, text, cause), FormatDate(env.fields(now, c.zone)), level, c.name,
                   text, Trace(env, cause))
  {
    var p := Prefix(env, c, now, level);
    var r := Line(env, c, now, level, text, cause);
    PrefixIsLaidOut(env, c, now, level);
    assert r[..|p|] == p;
    assert r[|p|..|p| + |text|] == text;
  }

  /** Appending a line keeps what was written and leaves exactly the laid-out line after it. */
  lemma WriteLineIsLaidOut(env: Env, c: Config, sink: Sink, now: Instant, level: Level, text: string,
                           cause: Option<Throwable>)
    ensures var r := Write(sink, Line(env, c, now, level, text, cause));
      && r.flushes == sink.flushes
      && |sink.out| <= |r.out| && r.out[..|sink.out|] == sink.out
      && IsLine(r.out[|sink.out|..], FormatDate(env.fields(now, c.zone)), level, c.name, text, Trace(env, cause))
  {
    var line := Line(env, c, now, level, text, cause);
    LineIsLaidOut(env, c, now, level, text, cause);
    assert Write(sink, line).out[|sink.out|..] == line;
  }

  /** `log(level, LogMessage)` and `log(level, CharSequence)` on the logger. */
  function Log(env: Env, g: Logger, sink: Sink, level: Level, body: Body, now: Instant): (r: Sink)
    ensures r.flushes == sink.flushes
    ensures !LoggerIsEnabled(g, level) ==> r == sink
  {
    if !LoggerIsEnabled(g, level) then sink
    else Write(sink, Line(env, g.config, now, level, Rendered(env, body, g.config.locale), None))
  }

  /**
   * An enabled `log` keeps what was written and appends one line: the prefix,
   * the rendered message and the line separator, with no stack trace.
   */
  lemma LogAppendsLine(env: Env, g: Logger, sink: Sink, level: Level, body: Body, now: Instant)
    requires LoggerIsEnabled(g, level)
    ensures var r := Log(env, g, sink, level, body, now);
      && |sink.out| <= |r.out| && r.out[..|sink.out|] == sink.out
      && IsLine(r.out[|sink.out|..], FormatDate(env.fields(now, g.config.zone)), level, g.config.name,
                Rendered(env, body, g.config.locale), "")
  {
    WriteLineIsLaidOut(env, g.config, sink, now, level, Rendered(env, body, g.config.locale), None);
  }

  /** `log(level, message, cause)`: a null cause is the cause-less overload. */
  function LogWithCause(env: Env, g: Logger, sink: Sink, level: Level, body: Body, cause: Option<Throwable>,
                        now: Instant): (r: Sink)
    ensures r.flushes == sink.flushes
    ensures cause.None? ==> r == Log(env, g, sink, level, body, now)
    ensures !LoggerIsEnabled(g, level) ==> r == sink
  {
    if cause.None? then Log(env, g, sink, level, body, now)
    else if !LoggerIsEnabled(g, level) then sink
    else Write(sink, Line(env, g.config, now, level, Rendered(env, body, g.config.locale), cause))
  }

  /** An enabled `log` with a cause appends the message line followed by the cause's stack trace. */
  lemma LogWithCauseAppendsLine(env: Env, g: Logger, sink: Sink, level: Level, body: Body, cause: Throwable,
                                now: Instant)
    requires LoggerIsEnabled(g, level)
    ensures var r := LogWithCause(env, g, sink, level, body, Some(cause), now);
      && |sink.out| <= |r.out| && r.out[..|sink.out|] == sink.out
      && IsLine(r.out[|sink.out|..], FormatDate(env.fields(now, g.config.zone)), level, g.config.name,
                Rendered(env, body, g.config.locale), env.stackTrace(cause))
  {
    WriteLineIsLaidOut(env, g.config, sink, now, level, Rendered(env, body, g.config.locale), Some(cause));
  }

  /** `logf(level, format, args)`: the message is `printf`'s output. */
  function Logf(env: Env, g: Logger, sink: Sink, level: Level, format: string, args: seq<Arg>, now: Instant): (r: Sink)
    ensures r.flushes == sink.flushes
    ensures !LoggerIsEnabled(g, level) ==> r == sink
  {
    if !LoggerIsEnabled(g, level) then sink
    else Write(sink, Line(env, g.config, now, level, env.printf(format, args), None))
  }

  /** An enabled `logf` appends one line carrying `printf`'s output as its message. */
  lemma LogfAppendsLine(env: Env, g: Logger, sink: Sink, level: Level, format: string, args: seq<Arg>, now: Instant)
    requires LoggerIsEnabled(g, level)
    ensures var r := Logf(env, g, sink, level, format, args, now);
      && |sink.out| <= |r.out| && r.out[..|sink.out|] == sink.out
      && IsLine(r.out[|sink.out|..], FormatDate(env.fields(now, g.config.zone)), level, g.config.name,
                env.printf(format, args), "")
  {
    WriteLineIsLaidOut(env, g.config, sink, now, level, env.printf(format, args), None);
  }

  /**
   * The line `writeEvents` writes for one event: a message event is rendered,
   * a text event prints its formatted message; either way it is stamped with
   * the event's own capture time.
   */
  function EventLine(env: Env, c: Config, e: Event): (r: string)
    ensures r == Line(env, c, Time(e), e.level, FormattedMessage(env, e, c.locale), e.cause)
  {
    var text := match MessageOf(e)
      case Some(m) => env.render(m, c.locale)
      case None => FormattedMessage(env, e, c.locale);
    Line(env, c, Time(e), e.level, text, e.cause)
  }

  /** The text the drain loop writes for `events` against the level read at drain start. */
  function Drain(env: Env, c: Config, current: Level, events: seq<Event>): string
    decreases |events|
  {
    if |events| == 0 then ""
    else
      var last := events[|events| - 1];
      Drain(env, c, current, events[..|events| - 1])
        + (if IsEnabled(last.level, current) then EventLine(env, c, last) else "")
  }

  /** The events a drain keeps, in their original order. */
  function Admitted(events: seq<Event>, current: Level): (r: seq<Event>)
    ensures |r| <= |events|
  {
    if |events| == 0 then []
    else
      (if IsEnabled(events[0].level, current) then [events[0]] else [])
        + Admitted(events[1..], current)
  }

  /** A drain keeps exactly the events whose level is enabled against the level it read. */
  lemma {:induction false} AdmittedKeepsEnabled(events: seq<Event>, current: Level)
    ensures forall e :: e in Admitted(events, current) <==> e in events && IsEnabled(e.level, current)
    decreases |events|
  {
    if |events| > 0 {
      AdmittedKeepsEnabled(events[1..], current);
      assert events == [events[0]] + events[1..];
    }
  }

  /** The lines of `events`, one after another. */
  function Lines(env: Env, c: Config, events: seq<Event>): string
  {
    if |events| == 0 then "" else EventLine(env, c, events[0]) + Lines(env, c, events[1..])
  }

  lemma {:induction false} LinesConcat(env: Env, c: Config, a: seq<Event>, b: seq<Event>)
    ensures Lines(env, c, a + b) == Lines(env, c, a) + Lines(env, c, b)
  {
    if |a| > 0 {
      assert (a + b)[0] == a[0] && (a + b)[1..] == a[1..] + b;
      LinesConcat(env, c, a[1..], b);
      AppendAssoc(EventLine(env, c, a[0]), Lines(env, c, a[1..]), Lines(env, c, b));
    } else {
      assert a + b == b;
    }
  }

  lemma {:induction false} AdmittedConcat(a: seq<Event>, b: seq<Event>, current: Level)
    ensures Admitted(a + b, current) == Admitted(a, current) + Admitted(b, current)
  {
    if |a| > 0 {
      assert (a + b)[0] == a[0] && (a + b)[1..] == a[1..] + b;
      AdmittedConcat(a[1..], b, current);
    } else {
      assert a + b == b;
    }
  }

  /**
   * The drain is a filter followed by the lines of what passed: exactly the
   * admitted events, in list order, each as its own line; skipped events add
   * nothing.
   */
  lemma {:induction false} DrainIsFilterThenLines(env: Env, c: Config, current: Level, events: seq<Event>)
    ensures Drain(env, c, current, events) == Lines(env, c, Admitted(events, current))
  {
    if |events| > 0 {
      var front, last := events[..|events| - 1], events[|events| - 1];
      assert events == front + [last];
      DrainIsFilterThenLines(env, c, current, front);
      AdmittedConcat(front, [last], current);
      LinesConcat(env, c, Admitted(front, current), Admitted([last], current));
      LinesOfOne(env, c, current, last);
    }
  }

  lemma LinesOfOne(env: Env, c: Config, current: Level, e: Event)
    ensures Lines(env, c, Admitted([e], current)) == (if IsEnabled(e.level, current) then EventLine(env, c, e) else "")
  {
    assert [e][1..] == [];
    if IsEnabled(e.level, current) {
      assert Admitted([e], current) == [e] + [];
      assert Lines(env, c, [e]) == EventLine(env, c, e) + "";
    } else {
      assert Admitted([e], current) == [] + [];
    }
  }

  /** Draining two lists in a row writes what draining their concatenation writes. */
  lemma {:induction false} DrainConcat(env: Env, c: Config, current: Level, a: seq<Event>, b: seq<Event>)
    ensures Drain(env, c, current, a + b) == Drain(env, c, current, a) + Drain(env, c, current, b)
  {
    DrainIsFilterThenLines(env, c, current, a + b);
    DrainIsFilterThenLines(env, c, current, a);
    DrainIsFilterThenLines(env, c, current, b);
    AdmittedConcat(a, b, current);
    LinesConcat(env, c, Admitted(a, current), Admitted(b, current));
  }

  /**
   * `writeEvents(events)`: nothing at all for an empty list; otherwise the
   * drain against the level read once at its start, then one flush if
   * auto-flush is on.
   */
  function WriteEvents(env: Env, g: Logger, sink: Sink, events: seq<Event>): (r: Sink)
    ensures events == [] ==> r == sink
    ensures events != [] ==> r.out == sink.out + Lines(env, g.config, Admitted(events, GetLevel(g)))
    ensures events != [] ==> r.flushes == sink.flushes + (if g.config.autoFlush then 1 else 0)
  {
    if |events| == 0 then sink
    else
      var currentLevel := g.level;
      DrainIsFilterThenLines(env, g.config, currentLevel, events);
      var written := Write(sink, Drain(env, g.config, currentLevel, events));
      if g.config.autoFlush then Flush(written) else written
  }

  lemma AppendAssoc(a: string, b: string, c: string)
    ensures (a + b) + c == a + (b + c)
  {
  }

  lemma DrainStep(env: Env, c: Config, current: Level, events: seq<Event>, i: nat)
    requires i < |events|
    ensures Drain(env, c, current, events[..i + 1]) == Drain(env, c, current, events[..i])
      + (if IsEnabled(events[i].level, current) then EventLine(env, c, events[i]) else "")
  {
    assert events[..i + 1][..i] == events[..i];
  }

  /** The drain loop of `writeEvents` as written: one pass over the list in order. */
  method WriteEventsLoop(env: Env, g: Logger, sink: Sink, events: seq<Event>) returns (r: Sink)
    ensures r == WriteEvents(env, g, sink, events)
  {
    if |events| == 0 {
      return sink;
    }
    var currentLevel := g.level;
    var out := sink.out;
    var i := 0;
    while i < |events|
      invariant 0 <= i <= |events|
      invariant out == sink.out + Drain(env, g.config, currentLevel, events[..i])
    {
      var e := events[i];
      DrainStep(env, g.config, currentLevel, events, i);
      ghost var d := Drain(env, g.config, currentLevel, events[..i]);
      if IsEnabled(e.level, currentLevel) {
        var line := EventLine(env, g.config, e);
        AppendAssoc(sink.out, d, line);
        out := out + line;
      } else {
        assert d + "" == d;
      }
      i := i + 1;
    }
    assert events[..i] == events;
    r := Sink(out, sink.flushes);
    if g.config.autoFlush {
      r := Flush(r);
    }
  }
}
