/**
 * `UnformattedLogWriter`: the level-bound writers of the unformatted
 * pipeline. Each call rejects a null message or format first, then checks
 * the gate, writes the message line and flushes when auto-flush is on. Its
 * nested `BatchLogWriter` captures one event per call, without a timestamp.
 */
module UnformattedLogWriter {
  import opened Wrappers
  import opened Levels
  import opened Collaborators
  import opened Api
  import opened UnformattedLogEvent
  import Impl = UnformattedLoggerImpl

  /** Write one line and flush when auto-flush is on. */
  function Emit(g: Impl.Logger, sink: Sink, text: string, trace: string): Sink
  {
    var written := Write(sink, Impl.Line(text, trace));
    if g.config.autoFlush then Flush(written) else written
  }

  /**
   * The four `log` overloads of the writer bound to `level`. A null cause
   * is the cause-less overload, and a null message is rejected before the
   * gate is consulted.
   */
  function WriterLog(env: Env, g: Impl.Logger, sink: Sink, level: Level, call: Call): (o: Outcome<Sink>)
    ensures o.Rejected? <==> call.body.None?
    ensures o.Rejected? || !Impl.LoggerIsEnabled(g, level) ==> o.value == sink
    ensures call.LogWithCause? && call.cause.None? ==> o == WriterLog(env, g, sink, level, Log(call.body))
    ensures o.Returned? && Impl.LoggerIsEnabled(g, level) ==>
      && o.value.out == sink.out + Rendered(env, call.body.value, g.config.locale) + NL
           + (if call.LogWithCause? then Trace(env, call.cause) else "")
      && o.value.flushes == sink.flushes + (if g.config.autoFlush then 1 else 0)
    decreases if call.LogWithCause? then 1 else 0
  {
    match call
    case Log(None) => Rejected(sink)
    case LogWithCause(None, _) => Rejected(sink)
    case Log(Some(body)) =>
      if !Impl.LoggerIsEnabled(g, level) then Returned(sink)
      else Returned(Emit(g, sink, Rendered(env, body, g.config.locale), ""))
    case LogWithCause(Some(body), cause) =>
      if cause.None? then WriterLog(env, g, sink, level, Log(Some(body)))
      else if !Impl.LoggerIsEnabled(g, level) then Returned(sink)
      else Returned(Emit(g, sink, Rendered(env, body, g.config.locale), env.stackTrace(cause.value)))
  }

  /** `logf(format, args)` of the writer bound to `level`: the message is `printf`'s output. */
  function WriterLogf(env: Env, g: Impl.Logger, sink: Sink, level: Level, format: Option<string>,
                      args: seq<Arg>): (o: Outcome<Sink>)
    ensures o.Rejected? <==> format.None?
    ensures o.Rejected? || !Impl.LoggerIsEnabled(g, level) ==> o.value == sink
    ensures o.Returned? && Impl.LoggerIsEnabled(g, level) ==>
      && o.value.out == sink.out + env.printf(format.value, args) + NL
      && o.value.flushes == sink.flushes + (if g.config.autoFlush then 1 else 0)
  {
    match format
    case None => Rejected(sink)
    case Some(f) =>
      if !Impl.LoggerIsEnabled(g, level) then Returned(sink)
      else Returned(Emit(g, sink, env.printf(f, args), ""))
  }

  /** Any writer method, dispatched to the overload it names. */
  function Dispatch(env: Env, g: Impl.Logger, sink: Sink, level: Level, wc: WriterCall): (o: Outcome<Sink>)
    ensures o.Rejected? <==> PassesNull(wc)
    ensures o.Rejected? || !Impl.LoggerIsEnabled(g, level) ==> o.value == sink
    ensures o.value.flushes == sink.flushes
      + (if o.Returned? && Impl.LoggerIsEnabled(g, level) && g.config.autoFlush then 1 else 0)
  {
    match wc
    case Logs(call) => WriterLog(env, g, sink, level, call)
    case Logf(format, args) => WriterLogf(env, g, sink, level, format, args)
  }

  /**
   * `BatchLogWriter.log`: one event carrying the writer's level, the body
   * as given and the cause; `None` when the message is null.
   */
  function CaptureCall(level: Level, call: Call): (o: Option<Event>)
    ensures o.None? <==> call.body.None?
    ensures o.Some? ==> o.value.level == level && o.value.body == call.body.value
    ensures o.Some? ==> o.value.cause == (if call.LogWithCause? then call.cause else None)
  {
    match call
    case Log(None) => None
    case Log(Some(Text(t))) => Some(OfText(level, t, None))
    case Log(Some(Message(m))) => Some(OfMessage(level, m, None))
    case LogWithCause(None, _) => None
    case LogWithCause(Some(Text(t)), cause) => Some(OfText(level, t, cause))
    case LogWithCause(Some(Message(m)), cause) => Some(OfMessage(level, m, cause))
  }
}
