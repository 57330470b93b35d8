/**
 * `SimpleLogWriter`: the level-bound writers of the simple pipeline. A
 * writer rejects a null message or format before anything happens and
 * otherwise forwards to its logger with its own level. Its nested
 * `BatchLogWriter` captures one event per call, stamped with the clock
 * value read at capture.
 */
module SimpleLogWriter {
  import opened Wrappers
  import opened Levels
  import opened Collaborators
  import opened Api
  import opened SimpleLogEvent
  import Impl = SimpleLoggerImpl

  /** The four `log` overloads of the writer bound to `level`. */
  function WriterLog(env: Env, g: Impl.Logger, sink: Sink, level: Level, call: Call, now: Instant): (o: Outcome<Sink>)
    ensures o.Rejected? <==> call.body.None?
    ensures o.Rejected? ==> o.value == sink
    ensures o.Returned? && call.Log? ==> o.value == Impl.Log(env, g, sink, level, call.body.value, now)
    ensures o.Returned? && call.LogWithCause? ==>
      o.value == Impl.LogWithCause(env, g, sink, level, call.body.value, call.cause, now)
  {
    match call
    case Log(None) => Rejected(sink)
    case Log(Some(body)) => Returned(Impl.Log(env, g, sink, level, body, now))
    case LogWithCause(None, _) => Rejected(sink)
    case LogWithCause(Some(body), cause) => Returned(Impl.LogWithCause(env, g, sink, level, body, cause, now))
  }

  /** `logf(format, args)` of the writer bound to `level`. */
  function WriterLogf(env: Env, g: Impl.Logger, sink: Sink, level: Level, format: Option<string>, args: seq<Arg>,
                      now: Instant): (o: Outcome<Sink>)
    ensures o.Rejected? <==> format.None?
    ensures o.Rejected? ==> o.value == sink
    ensures o.Returned? ==> o.value == Impl.Logf(env, g, sink, level, format.value, args, now)
  {
    match format
    case None => Rejected(sink)
    case Some(f) => Returned(Impl.Logf(env, g, sink, level, f, args, now))
  }

  /** Any writer method, dispatched to the overload it names. */
  function Dispatch(env: Env, g: Impl.Logger, sink: Sink, level: Level, wc: WriterCall, now: Instant): (o: Outcome<Sink>)
    ensures o.Rejected? <==> PassesNull(wc)
    ensures o.Rejected? ==> o.value == sink
    ensures o.value.flushes == sink.flushes
  {
    match wc
    case Logs(call) => WriterLog(env, g, sink, level, call, now)
    case Logf(format, args) => WriterLogf(env, g, sink, level, format, args, now)
  }

  /**
   * `BatchLogWriter.log`: one event carrying the writer's level, the clock
   * value read now, the body as given (text stays text, a message stays
   * unrendered) and the cause; `None` when the message is null.
   */
  function CaptureCall(level: Level, call: Call, now: Instant): (o: Option<Event>)
    ensures o.None? <==> call.body.None?
    ensures o.Some? ==> Time(o.value) == now && o.value.level == level && o.value.body == call.body.value
    ensures o.Some? ==> o.value.cause == (if call.LogWithCause? then call.cause else None)
  {
    match call
    case Log(None) => None
    case Log(Some(Text(t))) => Some(OfText(now, level, t, None))
    case Log(Some(Message(m))) => Some(OfMessage(now, level, m, None))
    case LogWithCause(None, _) => None
    case LogWithCause(Some(Text(t)), cause) => Some(OfText(now, level, t, cause))
    case LogWithCause(Some(Message(m)), cause) => Some(OfMessage(now, level, m, cause))
  }
}
