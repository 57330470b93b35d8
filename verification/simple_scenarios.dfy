/**
 * End-to-end runs of the simple pipeline, following the repository's own
 * tests: a provider made with the default builder, a logger obtained from
 * it, and a sequence of calls on it, with the collaborators fixed to what
 * those tests rely on (the clock, the name abbreviation, the formatting of
 * messages).
 */
module SimpleScenarios {
  import opened Wrappers
  import opened Levels
  import opened Dates
  import opened Collaborators
  import opened Api
  import opened Scripts
  import opened SimpleLogEvent
  import SimpleLogger
  import Impl = SimpleLoggerImpl
  import SimpleBatch

  /** The timestamps of the tests: 2007-12-03 10:15, UTC, at a given second and millisecond. */
  function TestTime(second: int, millis: int): (f: DateFields)
    requires 0 <= second < 60 && 0 <= millis < 1000
    ensures Formattable(f) && f.nano / 1000000 == millis
  {
    DateFields(2007, 12, 3, 10, 15, second, millis * 1000000, 0)
  }

  /** The timestamp text of a test time, given the text of its second and millisecond. */
  lemma TestDate(second: int, millis: int, ss: string, ms: string)
    requires 0 <= second < 60 && 0 <= millis < 1000
    requires TwoDigits(second) == ss && ThreeDigits(millis) == ms
    ensures FormatDate(TestTime(second, millis)) == "2007-12-03 10:15:" + ss + "." + ms + "+0000"
  {
    var f := TestTime(second, millis);
    var date, time, offset := DatePart(f), TimePart(f), OffsetText(0);
    assert FormatDate(f) == date + " " + time + "." + ms + offset;
    assert date == "2007-12-03" by {
      assert DecimalText(2007) == "2007" by {
        assert DecimalText(2) == "2";
        assert DecimalText(20) == "20";
        assert DecimalText(200) == "200";
      }
      assert TwoDigits(12) == "12" && TwoDigits(3) == "03";
    }
    assert time == "10:15:" + ss by {
      assert TwoDigits(10) == "10" && TwoDigits(15) == "15";
    }
    assert offset == "+0000";
  }

  lemma TestDigits()
    ensures TwoDigits(30) == "30" && TwoDigits(31) == "31" && TwoDigits(33) == "33" && TwoDigits(34) == "34"
    ensures ThreeDigits(0) == "000" && ThreeDigits(500) == "500" && ThreeDigits(600) == "600"
    ensures ThreeDigits(700) == "700" && ThreeDigits(800) == "800"
  {
    assert Digit(0) == '0' && Digit(1) == '1' && Digit(3) == '3' && Digit(4) == '4';
    assert Digit(5) == '5' && Digit(6) == '6' && Digit(7) == '7' && Digit(8) == '8';
  }

  /** The texts the tests expect for the timestamps they use. */
  lemma TestDateTexts()
    ensures "2007-12-03 10:15:" + "30" + "." + "000" + "+0000" == "2007-12-03 10:15:30.000+0000"
    ensures "2007-12-03 10:15:" + "30" + "." + "700" + "+0000" == "2007-12-03 10:15:30.700+0000"
    ensures "2007-12-03 10:15:" + "31" + "." + "800" + "+0000" == "2007-12-03 10:15:31.800+0000"
    ensures "2007-12-03 10:15:" + "33" + "." + "600" + "+0000" == "2007-12-03 10:15:33.600+0000"
    ensures "2007-12-03 10:15:" + "34" + "." + "500" + "+0000" == "2007-12-03 10:15:34.500+0000"
  {
  }

  /** The timestamps the simple pipeline prints at the times the tests use. */
  lemma TestStamps()
    ensures FormatDate(TestTime(30, 0)) == "2007-12-03 10:15:30.000+0000"
    ensures FormatDate(TestTime(30, 700)) == "2007-12-03 10:15:30.700+0000"
    ensures FormatDate(TestTime(31, 800)) == "2007-12-03 10:15:31.800+0000"
    ensures FormatDate(TestTime(33, 600)) == "2007-12-03 10:15:33.600+0000"
    ensures FormatDate(TestTime(34, 500)) == "2007-12-03 10:15:34.500+0000"
  {
    TestDigits();
    TestDateTexts();
    TestDate(30, 0, "30", "000");
    TestDate(30, 700, "30", "700");
    TestDate(31, 800, "31", "800");
    TestDate(33, 600, "33", "600");
    TestDate(34, 500, "34", "500");
  }

  /** The level column of a simple line as the tests spell it: the name right-aligned in six characters. */
  function Column(level: Level): string
  {
    match level
    case ERROR => " ERROR"
    case WARN => "  WARN"
    case INFO => "  INFO"
    case DEBUG => " DEBUG"
    case NONE => "  NONE"
  }

  /** The padding the simple pipeline puts before a level name yields the test's column. */
  lemma LevelColumn(level: Level)
    ensures "  "[..6 - |Name(level)|] + Name(level) == Column(level)
  {
  }

  /** A line as the tests spell it out: timestamp, level column, bracketed name, message, line end. */
  function Expected(stamp: string, level: Level, name: string, text: string): string
  {
    stamp + Column(level) + " [" + name + "] " + text + NL
  }

  /** A line of the simple pipeline, written out piece by piece. */
  lemma LineText(env: Env, c: Impl.Config, now: Instant, level: Level, text: string, cause: Option<Throwable>)
    ensures Impl.Line(env, c, now, level, text, cause)
         == FormatDate(env.fields(now, c.zone)) + "  "[..6 - |Name(level)|] + Name(level) + " [" + c.name + "] "
            + text + NL + Trace(env, cause)
  {
  }

  lemma RegroupColumn(date: string, pad: string, lname: string, name: string, text: string, trace: string)
    ensures date + pad + lname + " [" + name + "] " + text + NL + trace
         == date + (pad + lname) + " [" + name + "] " + text + NL + trace
  {
  }

  /** A simple line is the line the tests spell out, followed by the cause's stack trace. */
  lemma ExpectedLine(env: Env, c: Impl.Config, now: Instant, level: Level, text: string,
                     cause: Option<Throwable>, stamp: string)
    requires FormatDate(env.fields(now, c.zone)) == stamp
    ensures Impl.Line(env, c, now, level, text, cause) == Expected(stamp, level, c.name, text) + Trace(env, cause)
  {
    LevelColumn(level);
    LineText(env, c, now, level, text, cause);
    RegroupColumn(stamp, "  "[..6 - |Name(level)|], Name(level), c.name, text, Trace(env, cause));
  }

  /** What a simple logger prints for one call: its line when the call's level is enabled, else nothing. */
  function Output(env: Env, g: Impl.Logger, s: Said): string
  {
    var l := SlotOf(s.call.severity);
    if Impl.LoggerIsEnabled(g, l) then Impl.Line(env, g.config, s.now, l, s.text, s.cause) else ""
  }

  /** What a simple logger prints for the calls: the output of each, in call order. */
  function Printed(env: Env, g: Impl.Logger, said: seq<Said>): string
    decreases |said|
  {
    if |said| == 0 then "" else Output(env, g, said[0]) + Printed(env, g, said[1..])
  }

  lemma PrintedCons(env: Env, g: Impl.Logger, s: Said, rest: seq<Said>)
    ensures Printed(env, g, [s] + rest) == Output(env, g, s) + Printed(env, g, rest)
  {
    assert ([s] + rest)[0] == s && ([s] + rest)[1..] == rest;
  }

  /**
   * A convenience call on a simple logger goes through the writer of its
   * severity to the logger's `log`/`logf`: at an enabled level it writes the
   * line of its text and cause, at a disabled one nothing; it never flushes
   * and never changes the level.
   */
  lemma Emits(env: Env, st: SimpleBatch.State, s: Said)
    requires Says(env, st.logger.config.locale, s)
    ensures SimpleBatch.DirectBy(env, st, OnLogger(env, s.call, s.now))
         == st.(sink := Write(st.sink, Output(env, st.logger, s)))
  {
    var st' := SimpleBatch.DirectBy(env, st, OnLogger(env, s.call, s.now));
    var g, l := st.logger, SlotOf(s.call.severity);
    match s.call
    case Plain(_, _) =>
      assert st'.sink == Impl.Log(env, g, st.sink, l, Text(s.text), s.now);
    case WithCause(_, _, _) =>
      assert st'.sink == Impl.LogWithCause(env, g, st.sink, l, Text(s.text), s.cause, s.now);
    case Pattern(_, pattern, args) =>
      assert st'.sink == Impl.Log(env, g, st.sink, l, Message(env.patternFormat(pattern, args)), s.now);
    case Printf(_, format, args) =>
      assert st'.sink == Impl.Logf(env, g, st.sink, l, format.value, args, s.now);
    if !Impl.LoggerIsEnabled(g, l) {
      assert st.sink.out + "" == st.sink.out;
    }
  }

  /**
   * Calls on a simple logger print the lines of the enabled ones in call
   * order and nothing for the rest; the logger and the flush count stay as
   * they were.
   */
  lemma {:induction false} CallsPrint(env: Env, g: Impl.Logger, sink: Sink, said: seq<Said>)
    requires forall i | 0 <= i < |said| :: Says(env, g.config.locale, said[i])
    ensures SimpleBatch.Direct(env, SimpleBatch.State(g, sink), Calls(env, said))
         == SimpleBatch.State(g, Write(sink, Printed(env, g, said)))
    decreases |said|
  {
    if |said| == 0 {
      assert sink.out + "" == sink.out;
    } else {
      var st := SimpleBatch.State(g, sink);
      var steps := Calls(env, said);
      var piece := Output(env, g, said[0]);
      assert steps[0] == OnLogger(env, said[0].call, said[0].now) && steps[1..] == Calls(env, said[1..]);
      Emits(env, st, said[0]);
      CallsPrint(env, g, Write(sink, piece), said[1..]);
      assert Printed(env, g, said) == piece + Printed(env, g, said[1..]);
      WriteTwice(sink, piece, Printed(env, g, said[1..]));
    }
  }

  /** Writing two texts one after the other is writing them joined. */
  lemma WriteTwice(sink: Sink, a: string, b: string)
    ensures Write(Write(sink, a), b) == Write(sink, a + b)
  {
    assert sink.out + a + b == sink.out + (a + b);
  }

  lemma PrintedThree(env: Env, g: Impl.Logger, a: Said, b: Said, c: Said)
    ensures Printed(env, g, [a, b, c]) == Output(env, g, a) + Output(env, g, b) + Output(env, g, c)
  {
    assert [a, b, c] == [a] + ([b] + ([c] + []));
    PrintedCons(env, g, c, []);
    PrintedCons(env, g, b, [c] + []);
    PrintedCons(env, g, a, [b] + ([c] + []));
    JoinThree(Output(env, g, a), Output(env, g, b), Output(env, g, c));
  }

  lemma JoinThree(x: string, y: string, z: string)
    ensures x + (y + (z + "")) == x + y + z
    ensures x + (y + z) == x + y + z
  {
  }

  /** The logger `getLogger(name)` returns on a provider built with the default builder. */
  lemma DefaultLogger(env: Env, name: string, abbreviated: string)
    requires env.abbreviate(name) == abbreviated
    ensures var p := SimpleLogger.ToPrintWriter(SimpleLogger.NewBuilder(env));
      SimpleLogger.GetLogger(env, p, name).0 == Impl.Logger(Impl.Config(abbreviated, UTC, env.defaultLocale, true), INFO)
  {
  }

  /**
   * On a logger at INFO, an INFO and a WARN call print their lines and a
   * DEBUG call prints nothing.
   */
  lemma InfoDropsDebug(env: Env, g: Impl.Logger, a: Said, b: Said, c: Said)
    requires g.level == INFO
    requires a.call.severity == Info && b.call.severity == Warn && c.call.severity == Debug
    ensures Printed(env, g, [a, b, c])
         == Impl.Line(env, g.config, a.now, INFO, a.text, a.cause) + Impl.Line(env, g.config, b.now, WARN, b.text, b.cause)
  {
    PrintedThree(env, g, a, b, c);
    JoinTwo(Output(env, g, a), Output(env, g, b));
  }

  /** The test's lines, as the simple pipeline prints them at the test's times. */
  lemma TestLines(env: Env, c: Impl.Config, t0: Instant, t1: Instant)
    requires c.name == "o.l.StandardLoggerTest" && c.zone == UTC
    requires env.fields(t0, UTC) == TestTime(30, 0) && env.fields(t1, UTC) == TestTime(30, 700)
    ensures Impl.Line(env, c, t0, INFO, "1output", None) + Impl.Line(env, c, t1, WARN, "2output", None)
         == Expected("2007-12-03 10:15:30.000+0000", INFO, "o.l.StandardLoggerTest", "1output")
          + Expected("2007-12-03 10:15:30.700+0000", WARN, "o.l.StandardLoggerTest", "2output")
  {
    TestStamps();
    ExpectedLine(env, c, t0, INFO, "1output", None, "2007-12-03 10:15:30.000+0000");
    ExpectedLine(env, c, t1, WARN, "2output", None, "2007-12-03 10:15:30.700+0000");
    assert Trace(env, None) == "";
    JoinEmpty(Expected("2007-12-03 10:15:30.000+0000", INFO, "o.l.StandardLoggerTest", "1output"),
              Expected("2007-12-03 10:15:30.700+0000", WARN, "o.l.StandardLoggerTest", "2output"));
  }

  lemma JoinEmpty(x: string, y: string)
    ensures x + "" + (y + "") == x + y
  {
  }

  /**
   * A default provider's logger, asked for an INFO, a WARN and a DEBUG
   * line, writes the INFO and WARN lines with the abbreviated name and the
   * clock value read at each call, drops the DEBUG line, and does not flush.
   */
  lemma OutputsMessages(env: Env, t0: Instant, t1: Instant)
    requires env.abbreviate("org.logl.StandardLoggerTest") == "o.l.StandardLoggerTest"
    requires env.fields(t0, UTC) == TestTime(30, 0) && env.fields(t1, UTC) == TestTime(30, 700)
    ensures
      var p := SimpleLogger.ToPrintWriter(SimpleLogger.NewBuilder(env));
      var g := SimpleLogger.GetLogger(env, p, "org.logl.StandardLoggerTest").0;
      var said := [Said(Plain(Info, Some(Text("1output"))), "1output", None, t0),
                   Said(Plain(Warn, Some(Text("2output"))), "2output", None, t1),
                   Said(Plain(Debug, Some(Text("3output"))), "3output", None, t1)];
      SimpleBatch.Direct(env, SimpleBatch.State(g, Sink("", 0)), Calls(env, said))
        == SimpleBatch.State(g, Sink(Expected("2007-12-03 10:15:30.000+0000", INFO, "o.l.StandardLoggerTest", "1output")
                                   + Expected("2007-12-03 10:15:30.700+0000", WARN, "o.l.StandardLoggerTest", "2output"), 0))
  {
    var p := SimpleLogger.ToPrintWriter(SimpleLogger.NewBuilder(env));
    var g := SimpleLogger.GetLogger(env, p, "org.logl.StandardLoggerTest").0;
    var a := Said(Plain(Info, Some(Text("1output"))), "1output", None, t0);
    var b := Said(Plain(Warn, Some(Text("2output"))), "2output", None, t1);
    var c := Said(Plain(Debug, Some(Text("3output"))), "3output", None, t1);
    DefaultLogger(env, "org.logl.StandardLoggerTest", "o.l.StandardLoggerTest");
    assert Says(env, g.config.locale, a) && Says(env, g.config.locale, b) && Says(env, g.config.locale, c);
    CallsPrint(env, g, Sink("", 0), [a, b, c]);
    InfoDropsDebug(env, g, a, b, c);
    TestLines(env, g.config, t0, t1);
  }

  lemma JoinTwo(x: string, y: string)
    ensures x + y + "" == x + y
  {
  }

  /** A script on the enclosing logger: its first step, then the rest from where that leaves the logger. */
  lemma DirectCons(env: Env, st: SimpleBatch.State, s: Step, rest: seq<Step>)
    ensures SimpleBatch.Direct(env, st, [s] + rest) == SimpleBatch.Direct(env, SimpleBatch.DirectBy(env, st, s), rest)
  {
    assert ([s] + rest)[0] == s && ([s] + rest)[1..] == rest;
  }

  /** What a script captures: what its first step captures, then what the rest captures. */
  lemma CapturedCons(cap: SimpleBatch.Capturer, s: Step, rest: seq<Step>)
    ensures SimpleBatch.Captured(cap, [s] + rest) == SimpleBatch.CapturedBy(cap, s) + SimpleBatch.Captured(cap, rest)
  {
    assert ([s] + rest)[0] == s && ([s] + rest)[1..] == rest;
  }

  /**
   * On a logger at WARN the callback's direct INFO call prints nothing; the
   * only lasting effect on the enclosing logger is the level set at the end.
   */
  lemma CallbackDirect(env: Env, g: Impl.Logger, sink: Sink, b1: string, m3: string, pattern: string, args: seq<Arg>,
                       t2: Instant, t3: Instant, t4: Instant)
    requires g.level == WARN
    ensures SimpleBatch.Direct(env, SimpleBatch.State(g, sink), Callback(env, b1, m3, pattern, args, t2, t3, t4))
         == SimpleBatch.State(g.(level := INFO), sink)
  {
    var st := SimpleBatch.State(g, sink);
    var steps := Callback(env, b1, m3, pattern, args, t2, t3, t4);
    assert steps == [steps[0]] + ([steps[1]] + ([steps[2]] + ([steps[3]] + [])));
    DirectCons(env, st, steps[0], [steps[1]] + ([steps[2]] + ([steps[3]] + [])));
    DirectCons(env, st, steps[1], [steps[2]] + ([steps[3]] + []));
    Emits(env, st, Said(Plain(Info, Some(Text(m3))), m3, None, t3));
    assert sink.out + "" == sink.out;
    DirectCons(env, st, steps[2], [steps[3]] + []);
    DirectCons(env, st, steps[3], []);
  }

  /**
   * The capturing logger keeps both of the callback's calls on it, in
   * order, each with its own level and capture time, the text as text and
   * the pattern call as an unrendered message.
   */
  lemma CallbackCaptures(env: Env, b1: string, m3: string, pattern: string, args: seq<Arg>,
                         t2: Instant, t3: Instant, t4: Instant)
    ensures NoNullArgument(Callback(env, b1, m3, pattern, args, t2, t3, t4))
    ensures SimpleBatch.Captured(SimpleBatch.Everything, Callback(env, b1, m3, pattern, args, t2, t3, t4))
         == [OfText(t2, INFO, b1, None), OfMessage(t4, WARN, env.patternFormat(pattern, args), None)]
  {
    var steps := Callback(env, b1, m3, pattern, args, t2, t3, t4);
    var cap := SimpleBatch.Everything;
    assert steps == [steps[0]] + ([steps[1]] + ([steps[2]] + ([steps[3]] + [])));
    CapturedCons(cap, steps[0], [steps[1]] + ([steps[2]] + ([steps[3]] + [])));
    CapturedCons(cap, steps[1], [steps[2]] + ([steps[3]] + []));
    CapturedCons(cap, steps[2], [steps[3]] + []);
    CapturedCons(cap, steps[3], []);
    assert SimpleBatch.CapturedBy(cap, steps[0]) == [OfText(t2, INFO, b1, None)];
    assert SimpleBatch.CapturedBy(cap, steps[2]) == [OfMessage(t4, WARN, env.patternFormat(pattern, args), None)];
  }

  /**
   * The drain after the callback, on a logger back at INFO: both captured
   * events pass, each printed with its own capture time, then one flush.
   */
  lemma CallbackDrains(env: Env, g: Impl.Logger, sink: Sink, b1: string, message: LogMessage, t2: Instant, t4: Instant)
    requires g.level == INFO && g.config.autoFlush
    ensures Impl.WriteEvents(env, g, sink, [OfText(t2, INFO, b1, None), OfMessage(t4, WARN, message, None)])
         == Sink(sink.out + (Impl.Line(env, g.config, t2, INFO, b1, None)
                             + Impl.Line(env, g.config, t4, WARN, env.render(message, g.config.locale), None)),
                 sink.flushes + 1)
  {
    var e1, e2 := OfText(t2, INFO, b1, None), OfMessage(t4, WARN, message, None);
    AdmittedTwo(e1, e2);
    LinesTwo(env, g.config, e1, e2);
  }

  lemma AdmittedTwo(e1: Event, e2: Event)
    requires e1.level == INFO && e2.level == WARN
    ensures Impl.Admitted([e1, e2], INFO) == [e1, e2]
  {
    assert [e1, e2][1..] == [e2] && [e2][1..] == [];
    assert Impl.Admitted([e2], INFO) == [e2] + [];
    assert Impl.Admitted([e1, e2], INFO) == [e1] + [e2];
  }

  lemma LinesTwo(env: Env, c: Impl.Config, e1: Event, e2: Event)
    ensures Impl.Lines(env, c, [e1, e2]) == Impl.EventLine(env, c, e1) + Impl.EventLine(env, c, e2)
  {
    assert [e1, e2][1..] == [e2] && [e2][1..] == [];
    var x, y := Impl.EventLine(env, c, e1), Impl.EventLine(env, c, e2);
    assert Impl.Lines(env, c, [e2]) == y + "";
    assert Impl.Lines(env, c, [e1, e2]) == x + (y + "");
    JoinThree(x, y, "");
  }

  /**
   * Before the batch: `setLevel(WARN)`, then an ERROR call, which prints its
   * line, and an INFO call, which prints nothing.
   */
  lemma BeforeBatch(env: Env, g: Impl.Logger, sink: Sink, s0: Said, s1: Said)
    requires s0.call.severity == Error && s1.call.severity == Info
    requires Says(env, g.config.locale, s0) && Says(env, g.config.locale, s1)
    ensures SimpleBatch.Direct(env, SimpleBatch.State(g, sink), [Adjust(Some(WARN))] + Calls(env, [s0, s1]))
         == SimpleBatch.State(g.(level := WARN), Write(sink, Impl.Line(env, g.config, s0.now, ERROR, s0.text, s0.cause)))
  {
    var gw := g.(level := WARN);
    DirectCons(env, SimpleBatch.State(g, sink), Adjust(Some(WARN)), Calls(env, [s0, s1]));
    CallsPrint(env, gw, sink, [s0, s1]);
    ErrorThenInfoAtWarn(env, gw, s0, s1);
  }

  lemma ErrorThenInfoAtWarn(env: Env, g: Impl.Logger, s0: Said, s1: Said)
    requires g.level == WARN && s0.call.severity == Error && s1.call.severity == Info
    ensures Printed(env, g, [s0, s1]) == Impl.Line(env, g.config, s0.now, ERROR, s0.text, s0.cause)
  {
    PrintedTwo(env, g, s0, s1);
    assert Output(env, g, s0) + "" == Output(env, g, s0);
  }

  lemma PrintedTwo(env: Env, g: Impl.Logger, a: Said, b: Said)
    ensures Printed(env, g, [a, b]) == Output(env, g, a) + Output(env, g, b)
  {
    assert [a, b] == [a] + ([b] + []);
    PrintedCons(env, g, b, []);
    PrintedCons(env, g, a, [b] + []);
    JoinLast(Output(env, g, a), Output(env, g, b));
  }

  lemma JoinLast(x: string, y: string)
    ensures x + (y + "") == x + y
  {
  }

  /**
   * The batched test on a logger at INFO with auto-flush: the ERROR line
   * printed before the batch, the two captured lines printed when the
   * callback returns (after the level is back at INFO, each with its own
   * capture time), then the INFO line with its cause; the direct INFO calls
   * made at WARN print nothing, and the drain is the only flush.
   */
  lemma BatchedRun(env: Env, g: Impl.Logger, s0: Said, s1: Said, b1: string, m3: string, pattern: string,
                   args: seq<Arg>, t2: Instant, t3: Instant, t4: Instant, s4: Said)
    requires g.level == INFO && g.config.autoFlush
    requires s0.call.severity == Error && s1.call.severity == Info && s4.call.severity == Info
    requires Says(env, g.config.locale, s0) && Says(env, g.config.locale, s1) && Says(env, g.config.locale, s4)
    ensures
      var st1 := SimpleBatch.Direct(env, SimpleBatch.State(g, Sink("", 0)), [Adjust(Some(WARN))] + Calls(env, [s0, s1]));
      var o := SimpleBatch.Batch(env, st1, Some(Callback(env, b1, m3, pattern, args, t2, t3, t4)));
      && o.Returned?
      && SimpleBatch.Direct(env, o.value, Calls(env, [s4]))
         == SimpleBatch.State(g, Sink(Impl.Line(env, g.config, s0.now, ERROR, s0.text, s0.cause)
                                      + (Impl.Line(env, g.config, t2, INFO, b1, None)
                                         + Impl.Line(env, g.config, t4, WARN,
                                                     env.render(env.patternFormat(pattern, args), g.config.locale), None))
                                      + Impl.Line(env, g.config, s4.now, INFO, s4.text, s4.cause), 1))
  {
    var l0 := Impl.Line(env, g.config, s0.now, ERROR, s0.text, s0.cause);
    var message := env.patternFormat(pattern, args);
    var drained := Impl.Line(env, g.config, t2, INFO, b1, None)
                 + Impl.Line(env, g.config, t4, WARN, env.render(message, g.config.locale), None);
    BeforeBatch(env, g, Sink("", 0), s0, s1);
    assert "" + l0 == l0;
    CallbackBatch(env, g, l0, b1, m3, pattern, args, t2, t3, t4);
    OneCall(env, g, Sink(l0 + drained, 1), s4);
  }

  /** A single call on the enclosing logger prints its output. */
  lemma OneCall(env: Env, g: Impl.Logger, sink: Sink, s: Said)
    requires Says(env, g.config.locale, s)
    ensures SimpleBatch.Direct(env, SimpleBatch.State(g, sink), Calls(env, [s]))
         == SimpleBatch.State(g, Write(sink, Output(env, g, s)))
  {
    CallsPrint(env, g, sink, [s]);
    assert [s] == [s] + [];
    PrintedCons(env, g, s, []);
    assert Output(env, g, s) + "" == Output(env, g, s);
  }

  /**
   * The batch itself, entered at WARN: the callback's captured lines are
   * printed after whatever was written before, and flushed once.
   */
  lemma CallbackBatch(env: Env, g: Impl.Logger, out: string, b1: string, m3: string, pattern: string, args: seq<Arg>,
                      t2: Instant, t3: Instant, t4: Instant)
    requires g.level == INFO && g.config.autoFlush
    ensures SimpleBatch.Batch(env, SimpleBatch.State(g.(level := WARN), Sink(out, 0)),
                              Some(Callback(env, b1, m3, pattern, args, t2, t3, t4)))
         == Returned(SimpleBatch.State(g, Sink(out + (Impl.Line(env, g.config, t2, INFO, b1, None)
                                                 + Impl.Line(env, g.config, t4, WARN,
                                                     env.render(env.patternFormat(pattern, args), g.config.locale), None)), 1)))
  {
    CallbackDirect(env, g.(level := WARN), Sink(out, 0), b1, m3, pattern, args, t2, t3, t4);
    CallbackCaptures(env, b1, m3, pattern, args, t2, t3, t4);
    CallbackDrains(env, g, Sink(out, 0), b1, env.patternFormat(pattern, args), t2, t4);
  }

  /** The batched test's lines, as the simple pipeline prints them at the test's times. */
  lemma BatchedTestLines(env: Env, c: Impl.Config, t0: Instant, t2: Instant, t4: Instant, t5: Instant, ex: Throwable)
    requires c.name == "o.l.SimpleLogger" && c.zone == UTC
    requires env.fields(t0, UTC) == TestTime(30, 0) && env.fields(t2, UTC) == TestTime(31, 800)
    requires env.fields(t4, UTC) == TestTime(33, 600) && env.fields(t5, UTC) == TestTime(34, 500)
    ensures Impl.Line(env, c, t0, ERROR, "1output", None)
            + (Impl.Line(env, c, t2, INFO, "b1output", None) + Impl.Line(env, c, t4, WARN, "b2output", None))
            + Impl.Line(env, c, t5, INFO, "4output", Some(ex))
         == Expected("2007-12-03 10:15:30.000+0000", ERROR, "o.l.SimpleLogger", "1output")
          + Expected("2007-12-03 10:15:31.800+0000", INFO, "o.l.SimpleLogger", "b1output")
          + Expected("2007-12-03 10:15:33.600+0000", WARN, "o.l.SimpleLogger", "b2output")
          + Expected("2007-12-03 10:15:34.500+0000", INFO, "o.l.SimpleLogger", "4output")
          + env.stackTrace(ex)
  {
    TestStamps();
    ExpectedLine(env, c, t0, ERROR, "1output", None, "2007-12-03 10:15:30.000+0000");
    ExpectedLine(env, c, t2, INFO, "b1output", None, "2007-12-03 10:15:31.800+0000");
    ExpectedLine(env, c, t4, WARN, "b2output", None, "2007-12-03 10:15:33.600+0000");
    ExpectedLine(env, c, t5, INFO, "4output", Some(ex), "2007-12-03 10:15:34.500+0000");
    assert Trace(env, None) == "" && Trace(env, Some(ex)) == env.stackTrace(ex);
    JoinFour(Expected("2007-12-03 10:15:30.000+0000", ERROR, "o.l.SimpleLogger", "1output"),
             Expected("2007-12-03 10:15:31.800+0000", INFO, "o.l.SimpleLogger", "b1output"),
             Expected("2007-12-03 10:15:33.600+0000", WARN, "o.l.SimpleLogger", "b2output"),
             Expected("2007-12-03 10:15:34.500+0000", INFO, "o.l.SimpleLogger", "4output"), env.stackTrace(ex));
  }

  lemma JoinFour(a: string, b: string, c: string, d: string, trace: string)
    ensures a + "" + ((b + "") + (c + "")) + (d + trace) == a + b + c + d + trace
  {
  }

  /**
   * The batched test on a default provider's logger: at WARN, `errorf`
   * prints and a pattern `info` does not; inside the batch, the capturing
   * logger keeps `info("b1output")` although the enclosing level is WARN,
   * the enclosing logger's own `info("3output")` is dropped, and
   * `warn("b2{}", "output")` is kept; the callback then sets INFO, so when
   * it returns both captured lines are printed with their capture times and
   * flushed once; last, `info("4output", ex)` prints its line and the stack
   * trace.
   */
  lemma OutputsBatchedMessages(env: Env, t0: Instant, t1: Instant, t2: Instant, t3: Instant, t4: Instant, t5: Instant,
                               format: string, fargs: seq<Arg>, p1: string, a1: seq<Arg>, p2: string, a2: seq<Arg>,
                               ex: Throwable)
    requires env.abbreviate("org.logl.SimpleLogger") == "o.l.SimpleLogger"
    requires env.fields(t0, UTC) == TestTime(30, 0) && env.fields(t2, UTC) == TestTime(31, 800)
    requires env.fields(t4, UTC) == TestTime(33, 600) && env.fields(t5, UTC) == TestTime(34, 500)
    requires env.printf(format, fargs) == "1output"
    requires env.render(env.patternFormat(p2, a2), env.defaultLocale) == "b2output"
    ensures
      var p := SimpleLogger.ToPrintWriter(SimpleLogger.NewBuilder(env));
      var g := SimpleLogger.GetLogger(env, p, "org.logl.SimpleLogger").0;
      var before := [Said(Printf(Error, Some(format), fargs), "1output", None, t0),
                     Said(Pattern(Info, p1, a1), env.render(env.patternFormat(p1, a1), env.defaultLocale), None, t1)];
      var st1 := SimpleBatch.Direct(env, SimpleBatch.State(g, Sink("", 0)), [Adjust(Some(WARN))] + Calls(env, before));
      var o := SimpleBatch.Batch(env, st1, Some(Callback(env, "b1output", "3output", p2, a2, t2, t3, t4)));
      var after := [Said(WithCause(Info, Some(Text("4output")), Some(ex)), "4output", Some(ex), t5)];
      && o.Returned?
      && SimpleBatch.Direct(env, o.value, Calls(env, after))
         == SimpleBatch.State(g, Sink(Expected("2007-12-03 10:15:30.000+0000", ERROR, "o.l.SimpleLogger", "1output")
                                    + Expected("2007-12-03 10:15:31.800+0000", INFO, "o.l.SimpleLogger", "b1output")
                                    + Expected("2007-12-03 10:15:33.600+0000", WARN, "o.l.SimpleLogger", "b2output")
                                    + Expected("2007-12-03 10:15:34.500+0000", INFO, "o.l.SimpleLogger", "4output")
                                    + env.stackTrace(ex), 1))
  {
    var p := SimpleLogger.ToPrintWriter(SimpleLogger.NewBuilder(env));
    var g := SimpleLogger.GetLogger(env, p, "org.logl.SimpleLogger").0;
    var s0 := Said(Printf(Error, Some(format), fargs), "1output", None, t0);
    var s1 := Said(Pattern(Info, p1, a1), env.render(env.patternFormat(p1, a1), env.defaultLocale), None, t1);
    var s4 := Said(WithCause(Info, Some(Text("4output")), Some(ex)), "4output", Some(ex), t5);
    DefaultLogger(env, "org.logl.SimpleLogger", "o.l.SimpleLogger");
    BatchedRun(env, g, s0, s1, "b1output", "3output", p2, a2, t2, t3, t4, s4);
    BatchedTestLines(env, g.config, t0, t2, t4, t5, ex);
  }

  /**
   * A provider built at DEBUG prints every call, all at the same clock
   * value: the `errorf` line, the pattern `info` line, and the DEBUG line
   * followed by its cause's stack trace; nothing is flushed.
   */
  lemma OutputsExceptions(env: Env, t0: Instant, format: string, fargs: seq<Arg>, pattern: string, args: seq<Arg>,
                          ex: Throwable)
    requires env.abbreviate("org.logl.SimpleLogger") == "o.l.SimpleLogger"
    requires env.fields(t0, UTC) == TestTime(30, 0)
    requires env.printf(format, fargs) == "1output"
    requires env.render(env.patternFormat(pattern, args), env.defaultLocale) == "2output"
    ensures
      var b := SimpleLogger.WithLogLevel(SimpleLogger.NewBuilder(env), Some(DEBUG));
      var g := SimpleLogger.GetLogger(env, SimpleLogger.ToPrintWriter(b.value), "org.logl.SimpleLogger").0;
      var said := [Said(Printf(Error, Some(format), fargs), "1output", None, t0),
                   Said(Pattern(Info, pattern, args), "2output", None, t0),
                   Said(WithCause(Debug, Some(Text("3output")), Some(ex)), "3output", Some(ex), t0)];
      && b.Returned?
      && SimpleBatch.Direct(env, SimpleBatch.State(g, Sink("", 0)), Calls(env, said))
         == SimpleBatch.State(g, Sink(Expected("2007-12-03 10:15:30.000+0000", ERROR, "o.l.SimpleLogger", "1output")
                                    + Expected("2007-12-03 10:15:30.000+0000", INFO, "o.l.SimpleLogger", "2output")
                                    + Expected("2007-12-03 10:15:30.000+0000", DEBUG, "o.l.SimpleLogger", "3output")
                                    + env.stackTrace(ex), 0))
  {
    var b := SimpleLogger.WithLogLevel(SimpleLogger.NewBuilder(env), Some(DEBUG));
    var g := SimpleLogger.GetLogger(env, SimpleLogger.ToPrintWriter(b.value), "org.logl.SimpleLogger").0;
    DebugLogger(env, "org.logl.SimpleLogger", "o.l.SimpleLogger");
    var x := Said(Printf(Error, Some(format), fargs), "1output", None, t0);
    var y := Said(Pattern(Info, pattern, args), "2output", None, t0);
    var z := Said(WithCause(Debug, Some(Text("3output")), Some(ex)), "3output", Some(ex), t0);
    assert Says(env, g.config.locale, x) && Says(env, g.config.locale, y) && Says(env, g.config.locale, z);
    CallsPrint(env, g, Sink("", 0), [x, y, z]);
    DebugPrintsAll(env, g, x, y, z);
    ExceptionsTestLines(env, g.config, t0, ex);
  }

  /** A provider built at DEBUG hands out loggers at DEBUG, with the default zone, locale and flushing. */
  lemma DebugLogger(env: Env, name: string, abbreviated: string)
    requires env.abbreviate(name) == abbreviated
    ensures var b := SimpleLogger.WithLogLevel(SimpleLogger.NewBuilder(env), Some(DEBUG));
      && b.Returned?
      && SimpleLogger.GetLogger(env, SimpleLogger.ToPrintWriter(b.value), name).0
         == Impl.Logger(Impl.Config(abbreviated, UTC, env.defaultLocale, true), DEBUG)
  {
  }

  /** On a logger at DEBUG, an ERROR, an INFO and a DEBUG call all print their lines. */
  lemma DebugPrintsAll(env: Env, g: Impl.Logger, a: Said, b: Said, c: Said)
    requires g.level == DEBUG
    requires a.call.severity == Error && b.call.severity == Info && c.call.severity == Debug
    ensures Printed(env, g, [a, b, c])
         == Impl.Line(env, g.config, a.now, ERROR, a.text, a.cause) + Impl.Line(env, g.config, b.now, INFO, b.text, b.cause)
          + Impl.Line(env, g.config, c.now, DEBUG, c.text, c.cause)
  {
    PrintedThree(env, g, a, b, c);
  }

  /** The exceptions test's lines, as the simple pipeline prints them at the test's time. */
  lemma ExceptionsTestLines(env: Env, c: Impl.Config, t0: Instant, ex: Throwable)
    requires c.name == "o.l.SimpleLogger" && c.zone == UTC
    requires env.fields(t0, UTC) == TestTime(30, 0)
    ensures "" + (Impl.Line(env, c, t0, ERROR, "1output", None) + Impl.Line(env, c, t0, INFO, "2output", None)
                  + Impl.Line(env, c, t0, DEBUG, "3output", Some(ex)))
         == Expected("2007-12-03 10:15:30.000+0000", ERROR, "o.l.SimpleLogger", "1output")
          + Expected("2007-12-03 10:15:30.000+0000", INFO, "o.l.SimpleLogger", "2output")
          + Expected("2007-12-03 10:15:30.000+0000", DEBUG, "o.l.SimpleLogger", "3output")
          + env.stackTrace(ex)
  {
    TestStamps();
    ExpectedLine(env, c, t0, ERROR, "1output", None, "2007-12-03 10:15:30.000+0000");
    ExpectedLine(env, c, t0, INFO, "2output", None, "2007-12-03 10:15:30.000+0000");
    ExpectedLine(env, c, t0, DEBUG, "3output", Some(ex), "2007-12-03 10:15:30.000+0000");
    assert Trace(env, None) == "" && Trace(env, Some(ex)) == env.stackTrace(ex);
    JoinThreeTrace(Expected("2007-12-03 10:15:30.000+0000", ERROR, "o.l.SimpleLogger", "1output"),
                   Expected("2007-12-03 10:15:30.000+0000", INFO, "o.l.SimpleLogger", "2output"),
                   Expected("2007-12-03 10:15:30.000+0000", DEBUG, "o.l.SimpleLogger", "3output"), env.stackTrace(ex));
  }

  lemma JoinThreeTrace(a: string, b: string, c: string, trace: string)
    ensures "" + ((a + "") + (b + "") + (c + trace)) == a + b + c + trace
  {
  }
}
