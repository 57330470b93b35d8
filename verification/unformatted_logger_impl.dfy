/**
 * `UnformattedLoggerImpl`: the logger of the unformatted pipeline. A line
 * is the message alone and a newline, followed by the cause's stack trace
 * when there is one; there is no timestamp, level or name. Direct
 * emissions happen in the writers; the logger keeps the level and drains
 * batches.
 */
module UnformattedLoggerImpl {
  import opened Wrappers
  import opened Levels
  import opened Collaborators
  import opened Api
  import opened UnformattedLogEvent

  /** What a logger fixes at construction: locale and auto-flush. */
  datatype Config = Config(locale: Locale, autoFlush: bool)

  /** A logger: its configuration and its current, adjustable level. */
  datatype Logger = Logger(config: Config, level: Level)

  /** `getLevel()`. */
  function GetLevel(g: Logger): Level
  {
    g.level
  }

  /**
   * `setLevel(level)`: a null level throws before anything changes;
   * otherwise the new level is swapped in and the previous one returned.
   */
  function SetLevel(g: Logger, level: Option<Level>): (o: Outcome<(Level, Logger)>)
    ensures o.Rejected? <==> level.None?
    ensures o.value.0 == GetLevel(g) && o.value.1.config == g.config
    ensures o.Rejected? ==> o.value.1 == g
    ensures o.Returned? ==> GetLevel(o.value.1) == level.value
  {
    match level
    case None => Rejected((g.level, g))
    case Some(l) => Returned((g.level, g.(level := l)))
  }

  /** The gate against the current level, for a level known not to be null. */
  predicate LoggerIsEnabled(g: Logger, l: Level)
  {
    IsEnabled(l, g.level)
  }

  /**
   * `isEnabled(level)`: a null level throws (the answer carried then is
   * meaningless); otherwise the level's ordinal is compared with the
   * ordinal of the level `getLevel` reports.
   */
  function Enabled(g: Logger, level: Option<Level>): (o: Outcome<bool>)
    ensures o.Rejected? <==> level.None?
    ensures o.Returned? ==> (o.value <==> Ordinal(level.value) <= Ordinal(GetLevel(g)))
  {
    match level
    case None => Rejected(false)
    case Some(l) => Returned(LoggerIsEnabled(g, l))
  }

  /** After `setLevel(l)`, `isEnabled` answers by `l` alone, whatever the level was before. */
  lemma GateFollowsSetLevel(g: Logger, l: Level, asked: Level)
    ensures var g' := SetLevel(g, Some(l)).value.1;
      Enabled(g', Some(asked)) == Returned(IsEnabled(asked, l))
  {
  }

  /** One emission: the message, the line separator, then the stack trace if a cause is given. */
  function Line(text: string, trace: string): string
  {
    text + NL + trace
  }

  /** A line reads back as the message, then the separator, then the trace, and nothing else. */
  lemma LineIsLaidOut(text: string, trace: string)
    ensures var r := Line(text, trace);
      && |r| == |text| + |NL| + |trace|
      && r[..|text|] == text && r[|text|..|text| + |NL|] == NL && r[|text| + |NL|..] == trace
  {
  }

  /** The line `writeEvents` writes for one event: its formatted message, then its cause's trace. */
  function EventLine(env: Env, c: Config, e: Event): (r: string)
    ensures r == Line(FormattedMessage(env, e, c.locale), Trace(env, e.cause))
  {
    var text := match MessageOf(e)
      case Some(m) => env.render(m, c.locale)
      case None => FormattedMessage(env, e, c.locale);
    text + NL + Trace(env, e.cause)
  }

  /** The text the drain loop writes for `events` against the level read at drain start. */
  function Drain(env: Env, c: Config, current: Level, events: seq<Event>): string
    decreases |events|
  {
    if |events| == 0 then ""
    else
      var last := events[|events| - 1];
      Drain(env, c, current, events[..|events| - 1])
        + (if IsEnabled(last.level, current) then EventLine(env, c, last) else "")
  }

  /** The events a drain keeps, in their original order. */
  function Admitted(events: seq<Event>, current: Level): (r: seq<Event>)
    ensures |r| <= |events|
  {
    if |events| == 0 then []
    else
      (if IsEnabled(events[0].level, current) then [events[0]] else [])
        + Admitted(events[1..], current)
  }

  /** A drain keeps exactly the events whose level is enabled against the level it read. */
  lemma {:induction false} AdmittedKeepsEnabled(events: seq<Event>, current: Level)
    ensures forall e :: e in Admitted(events, current) <==> e in events && IsEnabled(e.level, current)
    decreases |events|
  {
    if |events| > 0 {
      AdmittedKeepsEnabled(events[1..], current);
      assert events == [events[0]] + events[1..];
    }
  }

  /** The lines of `events`, one after another. */
  function Lines(env: Env, c: Config, events: seq<Event>): string
  {
    if |events| == 0 then "" else EventLine(env, c, events[0]) + Lines(env, c, events[1..])
  }

  lemma {:induction false} LinesConcat(env: Env, c: Config, a: seq<Event>, b: seq<Event>)
    ensures Lines(env, c, a + b) == Lines(env, c, a) + Lines(env, c, b)
  {
    if |a| > 0 {
      assert (a + b)[0] == a[0] && (a + b)[1..] == a[1..] + b;
      LinesConcat(env, c, a[1..], b);
      AppendAssoc(EventLine(env, c, a[0]), Lines(env, c, a[1..]), Lines(env, c, b));
    } else {
      assert a + b == b;
    }
  }

  lemma {:induction false} AdmittedConcat(a: seq<Event>, b: seq<Event>, current: Level)
    ensures Admitted(a + b, current) == Admitted(a, current) + Admitted(b, current)
  {
    if |a| > 0 {
      assert (a + b)[0] == a[0] && (a + b)[1..] == a[1..] + b;
      AdmittedConcat(a[1..], b, current);
    } else {
      assert a + b == b;
    }
  }

  /**
   * The drain is a filter followed by the lines of what passed: exactly the
   * admitted events, in list order, each as its own line.
   */
  lemma {:induction false} DrainIsFilterThenLines(env: Env, c: Config, current: Level, events: seq<Event>)
    ensures Drain(env, c, current, events) == Lines(env, c, Admitted(events, current))
  {
    if |events| > 0 {
      var front, last := events[..|events| - 1], events[|events| - 1];
      assert events == front + [last];
      DrainIsFilterThenLines(env, c, current, front);
      AdmittedConcat(front, [last], current);
      LinesConcat(env, c, Admitted(front, current), Admitted([last], current));
      LinesOfOne(env, c, current, last);
    }
  }

  lemma LinesOfOne(env: Env, c: Config, current: Level, e: Event)
    ensures Lines(env, c, Admitted([e], current)) == (if IsEnabled(e.level, current) then EventLine(env, c, e) else "")
  {
    assert [e][1..] == [];
    if IsEnabled(e.level, current) {
      assert Admitted([e], current) == [e] + [];
      assert Lines(env, c, [e]) == EventLine(env, c, e) + "";
    } else {
      assert Admitted([e], current) == [] + [];
    }
  }

  lemma AppendAssoc(a: string, b: string, c: string)
    ensures (a + b) + c == a + (b + c)
  {
  }

  /**
   * `writeEvents(events)`: nothing at all for an empty list; otherwise the
   * drain against the level read once at its start, then one flush if
   * auto-flush is on.
   */
  function WriteEvents(env: Env, g: Logger, sink: Sink, events: seq<Event>): (r: Sink)
    ensures events == [] ==> r == sink
    ensures events != [] ==> r.out == sink.out + Lines(env, g.config, Admitted(events, GetLevel(g)))
    ensures events != [] ==> r.flushes == sink.flushes + (if g.config.autoFlush then 1 else 0)
  {
    if |events| == 0 then sink
    else
      var currentLevel := g.level;
      DrainIsFilterThenLines(env, g.config, currentLevel, events);
      var written := Write(sink, Drain(env, g.config, currentLevel, events));
      if g.config.autoFlush then Flush(written) else written
  }
}
