/**
 * End-to-end runs of the unformatted pipeline, following the repository's
 * own tests: a provider made with the default builder, a logger obtained
 * from it, and a sequence of calls on it, with the collaborators fixed to
 * what those tests rely on (the formatting of messages, the stack trace).
 */
module UnformattedScenarios {
  import opened Wrappers
  import opened Levels
  import opened Collaborators
  import opened Api
  import opened Scripts
  import opened UnformattedLogEvent
  import UnformattedLogger
  import Impl = UnformattedLoggerImpl
  import UnformattedBatch
  import UnformattedLogWriter

  /** What an unformatted logger prints for one call: its line when the call's level is enabled, else nothing. */
  function Output(env: Env, g: Impl.Logger, s: Said): string
  {
    if Impl.LoggerIsEnabled(g, SlotOf(s.call.severity)) then Impl.Line(s.text, Trace(env, s.cause)) else ""
  }

  /** The flushes one call makes: one when it prints and auto-flush is on. */
  function FlushesOf(g: Impl.Logger, s: Said): nat
  {
    if Impl.LoggerIsEnabled(g, SlotOf(s.call.severity)) && g.config.autoFlush then 1 else 0
  }

  /** What an unformatted logger prints for the calls: the output of each, in call order. */
  function Printed(env: Env, g: Impl.Logger, said: seq<Said>): string
    decreases |said|
  {
    if |said| == 0 then "" else Output(env, g, said[0]) + Printed(env, g, said[1..])
  }

  /** The flushes the calls make together. */
  function Flushes(g: Impl.Logger, said: seq<Said>): nat
    decreases |said|
  {
    if |said| == 0 then 0 else FlushesOf(g, said[0]) + Flushes(g, said[1..])
  }

  /** The sink after the calls: their output appended, their flushes counted. */
  function After(env: Env, g: Impl.Logger, sink: Sink, said: seq<Said>): Sink
  {
    Sink(sink.out + Printed(env, g, said), sink.flushes + Flushes(g, said))
  }

  /**
   * A convenience call on an unformatted logger goes through the writer of
   * its severity: at an enabled level it writes the line of its text and
   * cause and flushes when auto-flush is on; at a disabled one it does
   * nothing. The level never changes.
   */
  lemma Emits(env: Env, st: UnformattedBatch.State, s: Said)
    requires Says(env, st.logger.config.locale, s)
    ensures UnformattedBatch.DirectBy(env, st, OnLogger(env, s.call, s.now))
         == st.(sink := Sink(st.sink.out + Output(env, st.logger, s), st.sink.flushes + FlushesOf(st.logger, s)))
  {
    var g, l := st.logger, SlotOf(s.call.severity);
    var (level, wc) := Route(env, s.call);
    assert UnformattedBatch.DirectBy(env, st, OnLogger(env, s.call, s.now))
        == st.(sink := UnformattedLogWriter.Dispatch(env, g, st.sink, l, wc).value);
    if !Impl.LoggerIsEnabled(g, l) {
      assert st.sink.out + "" == st.sink.out;
    } else {
      match s.call
      case Plain(_, _) =>
      case WithCause(_, _, cause) =>
        if cause.None? {
          assert UnformattedLogWriter.WriterLog(env, g, st.sink, l, wc.call)
              == UnformattedLogWriter.WriterLog(env, g, st.sink, l, Log(wc.call.body));
        }
      case Pattern(_, _, _) =>
      case Printf(_, _, _) =>
    }
  }

  /** Writing, then writing more, is writing both; the flush counts add up. */
  lemma AfterTwice(sink: Sink, a: string, b: string, m: nat, n: nat)
    ensures Sink(Sink(sink.out + a, sink.flushes + m).out + b, Sink(sink.out + a, sink.flushes + m).flushes + n)
         == Sink(sink.out + (a + b), sink.flushes + (m + n))
  {
    assert sink.out + a + b == sink.out + (a + b);
  }

  /**
   * Calls on an unformatted logger print the lines of the enabled ones in
   * call order, each followed by its flush when auto-flush is on, and
   * nothing for the rest; the logger stays as it was.
   */
  lemma {:induction false} CallsPrint(env: Env, g: Impl.Logger, sink: Sink, said: seq<Said>)
    requires forall i | 0 <= i < |said| :: Says(env, g.config.locale, said[i])
    ensures UnformattedBatch.Direct(env, UnformattedBatch.State(g, sink), Calls(env, said))
         == UnformattedBatch.State(g, After(env, g, sink, said))
    decreases |said|
  {
    if |said| == 0 {
      assert sink.out + "" == sink.out;
    } else {
      var next := Sink(sink.out + Output(env, g, said[0]), sink.flushes + FlushesOf(g, said[0]));
      CallsStep(env, g, sink, said);
      CallsPrint(env, g, next, said[1..]);
      AfterStep(env, g, sink, said);
    }
  }

  /** The first call of a script takes effect, then the rest runs from there. */
  lemma CallsStep(env: Env, g: Impl.Logger, sink: Sink, said: seq<Said>)
    requires |said| > 0 && Says(env, g.config.locale, said[0])
    ensures UnformattedBatch.Direct(env, UnformattedBatch.State(g, sink), Calls(env, said))
         == UnformattedBatch.Direct(env, UnformattedBatch.State(g, Sink(sink.out + Output(env, g, said[0]),
                                                                       sink.flushes + FlushesOf(g, said[0]))),
                                    Calls(env, said[1..]))
  {
    var steps := Calls(env, said);
    assert steps[0] == OnLogger(env, said[0].call, said[0].now) && steps[1..] == Calls(env, said[1..]);
    Emits(env, UnformattedBatch.State(g, sink), said[0]);
  }

  /** What the calls leave in the sink: the first call's output and flush, then the rest's. */
  lemma AfterStep(env: Env, g: Impl.Logger, sink: Sink, said: seq<Said>)
    requires |said| > 0
    ensures After(env, g, Sink(sink.out + Output(env, g, said[0]), sink.flushes + FlushesOf(g, said[0])), said[1..])
         == After(env, g, sink, said)
  {
    AfterTwice(sink, Output(env, g, said[0]), Printed(env, g, said[1..]), FlushesOf(g, said[0]), Flushes(g, said[1..]));
  }

  /** The logger `getLogger(name)` returns on a provider built with the default builder. */
  lemma DefaultLogger(env: Env, name: string)
    ensures var p := UnformattedLogger.ToPrintWriter(UnformattedLogger.NewBuilder(env));
      UnformattedLogger.GetLogger(env, p, name).0 == Impl.Logger(Impl.Config(env.defaultLocale, true), INFO)
  {
  }

  /** The output and flushes of a script: those of its first call, then those of the rest. */
  lemma AfterCons(env: Env, g: Impl.Logger, s: Said, rest: seq<Said>)
    ensures Printed(env, g, [s] + rest) == Output(env, g, s) + Printed(env, g, rest)
    ensures Flushes(g, [s] + rest) == FlushesOf(g, s) + Flushes(g, rest)
  {
    assert ([s] + rest)[0] == s && ([s] + rest)[1..] == rest;
  }

  /** Three calls print the output of each in turn. */
  lemma AfterThree(env: Env, g: Impl.Logger, sink: Sink, a: Said, b: Said, c: Said)
    ensures After(env, g, sink, [a, b, c])
         == Sink(sink.out + (Output(env, g, a) + (Output(env, g, b) + Output(env, g, c))),
                 sink.flushes + (FlushesOf(g, a) + (FlushesOf(g, b) + FlushesOf(g, c))))
  {
    assert [a, b, c] == [a] + ([b] + ([c] + []));
    AfterCons(env, g, c, []);
    AfterCons(env, g, b, [c] + []);
    AfterCons(env, g, a, [b] + ([c] + []));
    assert Output(env, g, c) + "" == Output(env, g, c);
  }

  /**
   * A default provider's logger, asked for an INFO, a WARN and a DEBUG
   * line, writes the INFO and WARN messages, each on its own line and each
   * flushed, and drops the DEBUG line.
   */
  lemma OutputsMessages(env: Env, now: Instant)
    ensures
      var p := UnformattedLogger.ToPrintWriter(UnformattedLogger.NewBuilder(env));
      var g := UnformattedLogger.GetLogger(env, p, "").0;
      var said := [Said(Plain(Info, Some(Text("1output"))), "1output", None, now),
                   Said(Plain(Warn, Some(Text("2output"))), "2output", None, now),
                   Said(Plain(Debug, Some(Text("3output"))), "3output", None, now)];
      UnformattedBatch.Direct(env, UnformattedBatch.State(g, Sink("", 0)), Calls(env, said))
        == UnformattedBatch.State(g, Sink("1output" + NL + "2output" + NL, 2))
  {
    var p := UnformattedLogger.ToPrintWriter(UnformattedLogger.NewBuilder(env));
    var g := UnformattedLogger.GetLogger(env, p, "").0;
    var a := Said(Plain(Info, Some(Text("1output"))), "1output", None, now);
    var b := Said(Plain(Warn, Some(Text("2output"))), "2output", None, now);
    var c := Said(Plain(Debug, Some(Text("3output"))), "3output", None, now);
    DefaultLogger(env, "");
    assert g == Impl.Logger(Impl.Config(env.defaultLocale, true), INFO);
    assert Says(env, g.config.locale, a) && Says(env, g.config.locale, b) && Says(env, g.config.locale, c);
    CallsPrint(env, g, Sink("", 0), [a, b, c]);
    AfterThree(env, g, Sink("", 0), a, b, c);
    assert Output(env, g, a) == Impl.Line("1output", "") && Output(env, g, b) == Impl.Line("2output", "");
    assert Output(env, g, c) == "";
    JoinTwoLines("1output", "2output");
  }

  lemma JoinTwoLines(a: string, b: string)
    ensures "" + (Impl.Line(a, "") + (Impl.Line(b, "") + "")) == a + NL + b + NL
  {
  }

  /** A single call on the enclosing logger prints its output and makes its flush. */
  lemma OneCall(env: Env, g: Impl.Logger, sink: Sink, s: Said)
    requires Says(env, g.config.locale, s)
    ensures UnformattedBatch.Direct(env, UnformattedBatch.State(g, sink), Calls(env, [s]))
         == UnformattedBatch.State(g, Sink(sink.out + Output(env, g, s), sink.flushes + FlushesOf(g, s)))
  {
    CallsPrint(env, g, sink, [s]);
    assert [s] == [s] + [];
    AfterCons(env, g, s, []);
    assert Output(env, g, s) + "" == Output(env, g, s);
  }

  /** A script on the enclosing logger: its first step, then the rest from where that leaves the logger. */
  lemma DirectCons(env: Env, st: UnformattedBatch.State, s: Step, rest: seq<Step>)
    ensures UnformattedBatch.Direct(env, st, [s] + rest)
         == UnformattedBatch.Direct(env, UnformattedBatch.DirectBy(env, st, s), rest)
  {
    assert ([s] + rest)[0] == s && ([s] + rest)[1..] == rest;
  }

  /** What a script captures: what its first step captures, then what the rest captures. */
  lemma CapturedCons(cap: UnformattedBatch.Capturer, s: Step, rest: seq<Step>)
    ensures UnformattedBatch.Captured(cap, [s] + rest)
         == UnformattedBatch.CapturedBy(cap, s) + UnformattedBatch.Captured(cap, rest)
  {
    assert ([s] + rest)[0] == s && ([s] + rest)[1..] == rest;
  }

  /**
   * Before the batch: `setLevel(WARN)`, then an ERROR call, which prints
   * its line and flushes, and an INFO call, which does nothing.
   */
  lemma BeforeBatch(env: Env, g: Impl.Logger, sink: Sink, s0: Said, s1: Said)
    requires g.config.autoFlush
    requires s0.call.severity == Error && s1.call.severity == Info
    requires Says(env, g.config.locale, s0) && Says(env, g.config.locale, s1)
    ensures UnformattedBatch.Direct(env, UnformattedBatch.State(g, sink), [Adjust(Some(WARN))] + Calls(env, [s0, s1]))
         == UnformattedBatch.State(g.(level := WARN),
                                   Sink(sink.out + Impl.Line(s0.text, Trace(env, s0.cause)), sink.flushes + 1))
  {
    var gw := g.(level := WARN);
    DirectCons(env, UnformattedBatch.State(g, sink), Adjust(Some(WARN)), Calls(env, [s0, s1]));
    CallsPrint(env, gw, sink, [s0, s1]);
    assert [s0, s1] == [s0] + ([s1] + []);
    AfterCons(env, gw, s1, []);
    AfterCons(env, gw, s0, [s1] + []);
    assert Output(env, gw, s0) + ("" + "") == Output(env, gw, s0);
  }

  /**
   * On a logger at WARN the callback's direct INFO call does nothing; the
   * only lasting effect on the enclosing logger is the level set at the end.
   */
  lemma CallbackDirect(env: Env, g: Impl.Logger, sink: Sink, b1: string, m3: string, pattern: string, args: seq<Arg>,
                       t2: Instant, t3: Instant, t4: Instant)
    requires g.level == WARN
    ensures UnformattedBatch.Direct(env, UnformattedBatch.State(g, sink), Callback(env, b1, m3, pattern, args, t2, t3, t4))
         == UnformattedBatch.State(g.(level := INFO), sink)
  {
    var st := UnformattedBatch.State(g, sink);
    var steps := Callback(env, b1, m3, pattern, args, t2, t3, t4);
    assert steps == [steps[0]] + ([steps[1]] + ([steps[2]] + ([steps[3]] + [])));
    DirectCons(env, st, steps[0], [steps[1]] + ([steps[2]] + ([steps[3]] + [])));
    DirectCons(env, st, steps[1], [steps[2]] + ([steps[3]] + []));
    Emits(env, st, Said(Plain(Info, Some(Text(m3))), m3, None, t3));
    assert sink.out + "" == sink.out;
    DirectCons(env, st, steps[2], [steps[3]] + []);
    DirectCons(env, st, steps[3], []);
  }

  /**
   * The capturing logger keeps both of the callback's calls on it, in
   * order, each with its own level, the text as text and the pattern call
   * as an unrendered message.
   */
  lemma CallbackCaptures(env: Env, b1: string, m3: string, pattern: string, args: seq<Arg>,
                         t2: Instant, t3: Instant, t4: Instant)
    ensures NoNullArgument(Callback(env, b1, m3, pattern, args, t2, t3, t4))
    ensures UnformattedBatch.Captured(UnformattedBatch.Everything, Callback(env, b1, m3, pattern, args, t2, t3, t4))
         == [OfText(INFO, b1, None), OfMessage(WARN, env.patternFormat(pattern, args), None)]
  {
    var steps := Callback(env, b1, m3, pattern, args, t2, t3, t4);
    var cap := UnformattedBatch.Everything;
    assert steps == [steps[0]] + ([steps[1]] + ([steps[2]] + ([steps[3]] + [])));
    CapturedCons(cap, steps[0], [steps[1]] + ([steps[2]] + ([steps[3]] + [])));
    CapturedCons(cap, steps[1], [steps[2]] + ([steps[3]] + []));
    CapturedCons(cap, steps[2], [steps[3]] + []);
    CapturedCons(cap, steps[3], []);
    assert UnformattedBatch.CapturedBy(cap, steps[0]) == [OfText(INFO, b1, None)];
    assert UnformattedBatch.CapturedBy(cap, steps[2]) == [OfMessage(WARN, env.patternFormat(pattern, args), None)];
  }

  /**
   * The drain after the callback, on a logger back at INFO: both captured
   * events pass, each on its own line, then one flush.
   */
  lemma CallbackDrains(env: Env, g: Impl.Logger, sink: Sink, b1: string, message: LogMessage)
    requires g.level == INFO && g.config.autoFlush
    ensures Impl.WriteEvents(env, g, sink, [OfText(INFO, b1, None), OfMessage(WARN, message, None)])
         == Sink(sink.out + (Impl.Line(b1, "") + Impl.Line(env.render(message, g.config.locale), "")), sink.flushes + 1)
  {
    var e1, e2 := OfText(INFO, b1, None), OfMessage(WARN, message, None);
    var events := [e1, e2];
    assert events[1..] == [e2] && [e2][1..] == [];
    assert Impl.Admitted([e2], INFO) == [e2] + [];
    assert Impl.Admitted(events, INFO) == [e1] + [e2];
    var x, y := Impl.EventLine(env, g.config, e1), Impl.EventLine(env, g.config, e2);
    assert Impl.Lines(env, g.config, [e2]) == y + "";
    assert Impl.Lines(env, g.config, events) == x + (y + "");
    assert y + "" == y;
  }

  /**
   * The batch itself, entered at WARN: the callback's captured lines are
   * printed after whatever was written before, and flushed once.
   */
  lemma CallbackBatch(env: Env, g: Impl.Logger, sink: Sink, b1: string, m3: string, pattern: string, args: seq<Arg>,
                      t2: Instant, t3: Instant, t4: Instant)
    requires g.level == INFO && g.config.autoFlush
    ensures UnformattedBatch.Batch(env, UnformattedBatch.State(g.(level := WARN), sink),
                                   Some(Callback(env, b1, m3, pattern, args, t2, t3, t4)))
         == Returned(UnformattedBatch.State(g, Sink(sink.out + (Impl.Line(b1, "")
                                                   + Impl.Line(env.render(env.patternFormat(pattern, args), g.config.locale), "")),
                                                   sink.flushes + 1)))
  {
    CallbackDirect(env, g.(level := WARN), sink, b1, m3, pattern, args, t2, t3, t4);
    CallbackCaptures(env, b1, m3, pattern, args, t2, t3, t4);
    CallbackDrains(env, g, sink, b1, env.patternFormat(pattern, args));
  }

  /**
   * The batched test on a logger at INFO with auto-flush: the ERROR line
   * printed and flushed before the batch, the two captured lines printed
   * and flushed once when the callback returns (after the level is back at
   * INFO), then the INFO line with its cause, flushed; the direct INFO
   * calls made at WARN do nothing.
   */
  lemma BatchedRun(env: Env, g: Impl.Logger, s0: Said, s1: Said, b1: string, m3: string, pattern: string,
                   args: seq<Arg>, t2: Instant, t3: Instant, t4: Instant, s4: Said)
    requires g.level == INFO && g.config.autoFlush
    requires s0.call.severity == Error && s1.call.severity == Info && s4.call.severity == Info
    requires Says(env, g.config.locale, s0) && Says(env, g.config.locale, s1) && Says(env, g.config.locale, s4)
    ensures
      var st1 := UnformattedBatch.Direct(env, UnformattedBatch.State(g, Sink("", 0)), [Adjust(Some(WARN))] + Calls(env, [s0, s1]));
      var o := UnformattedBatch.Batch(env, st1, Some(Callback(env, b1, m3, pattern, args, t2, t3, t4)));
      && o.Returned?
      && UnformattedBatch.Direct(env, o.value, Calls(env, [s4]))
         == UnformattedBatch.State(g, Sink(Impl.Line(s0.text, Trace(env, s0.cause))
                                           + (Impl.Line(b1, "")
                                              + Impl.Line(env.render(env.patternFormat(pattern, args), g.config.locale), ""))
                                           + Impl.Line(s4.text, Trace(env, s4.cause)), 3))
  {
    var l0 := Impl.Line(s0.text, Trace(env, s0.cause));
    var drained := Impl.Line(b1, "") + Impl.Line(env.render(env.patternFormat(pattern, args), g.config.locale), "");
    BeforeBatch(env, g, Sink("", 0), s0, s1);
    assert "" + l0 == l0;
    CallbackBatch(env, g, Sink(l0, 1), b1, m3, pattern, args, t2, t3, t4);
    OneCall(env, g, Sink(l0 + drained, 2), s4);
  }

  /**
   * The batched test on a default provider's logger: at WARN, `errorf`
   * prints and a pattern `info` does not; inside the batch, the capturing
   * logger keeps `info("b1output")` although the enclosing level is WARN,
   * the enclosing logger's own `info("3output")` is dropped, and
   * `warn("b2{}", "output")` is kept; the callback then sets INFO, so when
   * it returns both captured messages are printed and flushed once; last,
   * `info("4output", ex)` prints its message and the stack trace. Three
   * flushes in all.
   */
  lemma OutputsBatchedMessages(env: Env, now: Instant, format: string, fargs: seq<Arg>, p1: string, a1: seq<Arg>,
                               p2: string, a2: seq<Arg>, ex: Throwable)
    requires env.printf(format, fargs) == "1output"
    requires env.render(env.patternFormat(p2, a2), env.defaultLocale) == "b2output"
    ensures
      var p := UnformattedLogger.ToPrintWriter(UnformattedLogger.NewBuilder(env));
      var g := UnformattedLogger.GetLogger(env, p, "").0;
      var before := [Said(Printf(Error, Some(format), fargs), "1output", None, now),
                     Said(Pattern(Info, p1, a1), env.render(env.patternFormat(p1, a1), env.defaultLocale), None, now)];
      var st1 := UnformattedBatch.Direct(env, UnformattedBatch.State(g, Sink("", 0)), [Adjust(Some(WARN))] + Calls(env, before));
      var o := UnformattedBatch.Batch(env, st1, Some(Callback(env, "b1output", "3output", p2, a2, now, now, now)));
      var after := [Said(WithCause(Info, Some(Text("4output")), Some(ex)), "4output", Some(ex), now)];
      && o.Returned?
      && UnformattedBatch.Direct(env, o.value, Calls(env, after))
         == UnformattedBatch.State(g, Sink("1output" + NL + "b1output" + NL + "b2output" + NL + "4output" + NL
                                           + env.stackTrace(ex), 3))
  {
    var p := UnformattedLogger.ToPrintWriter(UnformattedLogger.NewBuilder(env));
    var g := UnformattedLogger.GetLogger(env, p, "").0;
    var s0 := Said(Printf(Error, Some(format), fargs), "1output", None, now);
    var s1 := Said(Pattern(Info, p1, a1), env.render(env.patternFormat(p1, a1), env.defaultLocale), None, now);
    var s4 := Said(WithCause(Info, Some(Text("4output")), Some(ex)), "4output", Some(ex), now);
    DefaultLogger(env, "");
    BatchedRun(env, g, s0, s1, "b1output", "3output", p2, a2, now, now, now, s4);
    assert Trace(env, None) == "" && Trace(env, Some(ex)) == env.stackTrace(ex);
    JoinLines("1output", "b1output", "b2output", "4output", env.stackTrace(ex));
  }

  lemma JoinLines(a: string, b: string, c: string, d: string, trace: string)
    ensures Impl.Line(a, "") + (Impl.Line(b, "") + Impl.Line(c, "")) + Impl.Line(d, trace)
         == a + NL + b + NL + c + NL + d + NL + trace
  {
  }

  /**
   * A provider built at DEBUG prints every call: the `errorf` line, the
   * pattern `info` line, and the DEBUG line with its cause's stack trace,
   * each flushed.
   */
  lemma OutputsExceptions(env: Env, now: Instant, format: string, fargs: seq<Arg>, pattern: string, args: seq<Arg>,
                          ex: Throwable)
    requires env.printf(format, fargs) == "1output"
    requires env.render(env.patternFormat(pattern, args), env.defaultLocale) == "2output"
    ensures
      var b := UnformattedLogger.WithLogLevel(UnformattedLogger.NewBuilder(env), Some(DEBUG));
      var g := UnformattedLogger.GetLogger(env, UnformattedLogger.ToPrintWriter(b.value), "").0;
      var said := [Said(Printf(Error, Some(format), fargs), "1output", None, now),
                   Said(Pattern(Info, pattern, args), "2output", None, now),
                   Said(WithCause(Debug, Some(Text("3output")), Some(ex)), "3output", Some(ex), now)];
      && b.Returned?
      && UnformattedBatch.Direct(env, UnformattedBatch.State(g, Sink("", 0)), Calls(env, said))
         == UnformattedBatch.State(g, Sink("1output" + NL + "2output" + NL + "3output" + NL + env.stackTrace(ex), 3))
  {
    var b := UnformattedLogger.WithLogLevel(UnformattedLogger.NewBuilder(env), Some(DEBUG));
    var g := UnformattedLogger.GetLogger(env, UnformattedLogger.ToPrintWriter(b.value), "").0;
    assert g == Impl.Logger(Impl.Config(env.defaultLocale, true), DEBUG);
    var x := Said(Printf(Error, Some(format), fargs), "1output", None, now);
    var y := Said(Pattern(Info, pattern, args), "2output", None, now);
    var z := Said(WithCause(Debug, Some(Text("3output")), Some(ex)), "3output", Some(ex), now);
    assert Says(env, g.config.locale, x) && Says(env, g.config.locale, y) && Says(env, g.config.locale, z);
    CallsPrint(env, g, Sink("", 0), [x, y, z]);
    AfterThree(env, g, Sink("", 0), x, y, z);
    assert Output(env, g, x) == Impl.Line("1output", "") && Output(env, g, y) == Impl.Line("2output", "");
    assert Output(env, g, z) == Impl.Line("3output", env.stackTrace(ex));
    JoinThreeLines("1output", "2output", "3output", env.stackTrace(ex));
  }

  lemma JoinThreeLines(a: string, b: string, c: string, trace: string)
    ensures "" + (Impl.Line(a, "") + (Impl.Line(b, "") + Impl.Line(c, trace)))
         == a + NL + b + NL + c + NL + trace
  {
  }
}
