/**
 * The `Logger` interface both pipelines implement: the writer dispatch, the
 * `isXEnabled` defaults, the convenience methods that route to a per-level
 * writer, and the shape of a `batch` callback.
 */
module Api {
  import opened Wrappers
  import opened Levels
  import opened Collaborators

  /** What a caller logs: pre-rendered text (`CharSequence`) or a deferred `LogMessage`. */
  datatype Body = Text(text: string) | Message(message: LogMessage)

  /** The text a body contributes to a line when rendered for `locale`. */
  function Rendered(env: Env, body: Body, locale: Locale): string
  {
    match body
    case Text(t) => t
    case Message(m) => env.render(m, locale)
  }

  /**
   * The four `log` overloads of a writer. `None` stands for a null
   * argument; `LogWithCause` is the overload that takes a cause, which may
   * itself be null.
   */
  datatype Call =
    | Log(body: Option<Body>)
    | LogWithCause(body: Option<Body>, cause: Option<Throwable>)

  /** Every writer method: the four `log` overloads and `logf(format, args)`. */
  datatype WriterCall =
    | Logs(call: Call)
    | Logf(format: Option<string>, args: seq<Arg>)

  /**
   * Whether a writer call passes null where every writer rejects it: the
   * message of `log` or the format of `logf`. The null writer of NONE writes
   * nothing but still rejects these.
   */
  predicate PassesNull(wc: WriterCall)
  {
    if wc.Logs? then wc.call.body.None? else wc.format.None?
  }

  /** The outcome of a call: it returned, or it threw a `NullPointerException` in the given state. */
  datatype Outcome<S> = Returned(value: S) | Rejected(value: S)

  /** The writer `writer(level)` hands out: one of the four slots, or the null writer. */
  datatype WriterRef = LevelWriter(level: Level) | NullWriter

  /** `Logger.writer(level)`. */
  function Writer(l: Level): (w: WriterRef)
    ensures w.NullWriter? <==> l == NONE
    ensures w.LevelWriter? ==> w.level == l && w.level in WriterLevels
  {
    match l
    case ERROR => LevelWriter(ERROR)
    case WARN => LevelWriter(WARN)
    case INFO => LevelWriter(INFO)
    case DEBUG => LevelWriter(DEBUG)
    case NONE => NullWriter
  }

  /**
   * `writer(level)` as called: the `switch` on a null level throws; any other
   * level gets the null writer for NONE and its own writer otherwise.
   */
  function WriterOf(level: Option<Level>): (o: Outcome<WriterRef>)
    ensures o.Rejected? <==> level.None?
    ensures o.Rejected? ==> o.value == NullWriter
    ensures o.Returned? ==> (o.value.NullWriter? <==> level.value == NONE)
    ensures o.Returned? && o.value.LevelWriter? ==> o.value.level == level.value && o.value.level in WriterLevels
  {
    match level
    case None => Rejected(NullWriter)
    case Some(l) => Returned(Writer(l))
  }

  /** The severities of the convenience methods: `error`, `warn`, `info`, `debug`. */
  datatype Severity = Error | Warn | Info | Debug

  /** The writer slot each family of convenience methods uses. */
  function SlotOf(s: Severity): (l: Level)
    ensures l in WriterLevels
    ensures Writer(l) == LevelWriter(l)
  {
    match s
    case Error => ERROR
    case Warn => WARN
    case Info => INFO
    case Debug => DEBUG
  }

  /** A convenience method of `Logger`: its severity and which overload was called. */
  datatype Convenience =
    | Plain(severity: Severity, body: Option<Body>)
    | WithCause(severity: Severity, body: Option<Body>, cause: Option<Throwable>)
    | Pattern(severity: Severity, pattern: string, args: seq<Arg>)
    | Printf(severity: Severity, format: Option<string>, args: seq<Arg>)

  /**
   * The default convenience methods: `error(msg)` is `errorWriter().log(msg)`,
   * `errorf(fmt, args)` is `errorWriter().logf(fmt, args)`, and likewise for the
   * other severities. The pattern overload goes through the writer's
   * `log(pattern, args)`, which logs the pattern-formatted message.
   */
  function Route(env: Env, c: Convenience): (r: (Level, WriterCall))
    ensures r.0 == SlotOf(c.severity) && r.0 != NONE
    ensures c.Printf? <==> r.1.Logf?
    ensures c.Printf? ==> r.1.format == c.format && r.1.args == c.args
    ensures c.Plain? ==> r.1 == Logs(Log(c.body))
    ensures c.WithCause? ==> r.1 == Logs(LogWithCause(c.body, c.cause))
    ensures c.Pattern? ==> r.1 == Logs(Log(Some(Message(env.patternFormat(c.pattern, c.args)))))
  {
    var level := SlotOf(c.severity);
    match c
    case Plain(_, body) => (level, Logs(Log(body)))
    case WithCause(_, body, cause) => (level, Logs(LogWithCause(body, cause)))
    case Pattern(_, pattern, args) => (level, Logs(Log(Some(Message(env.patternFormat(pattern, args))))))
    case Printf(_, format, args) => (level, Logf(format, args))
  }

  /**
   * A logger as its callers query it: an adjustable pipeline logger at some
   * level, or the capturing logger a `batch` callback receives.
   */
  datatype View = Adjustable(level: Level) | Capturing

  /** `getLevel()`: the capturing logger always reports DEBUG. */
  function GetLevel(v: View): Level
  {
    match v
    case Adjustable(l) => l
    case Capturing => DEBUG
  }

  /** `isEnabled(level)`: the capturing logger answers true for every level. */
  predicate ViewIsEnabled(v: View, l: Level)
  {
    match v
    case Adjustable(current) => IsEnabled(l, current)
    case Capturing => true
  }

  /**
   * `isEnabled(level)` as called: a null level throws, on the capturing
   * logger as on the adjustable one; otherwise the answer is the gate
   * applied to the level `getLevel` reports.
   */
  function ViewEnabled(v: View, level: Option<Level>): (o: Outcome<bool>)
    ensures o.Rejected? <==> level.None?
    ensures o.Returned? ==> (o.value <==> IsEnabled(level.value, GetLevel(v)))
  {
    match level
    case None => Rejected(false)
    case Some(l) => Returned(ViewIsEnabled(v, l))
  }

  /** `isErrorEnabled()`, `isWarnEnabled()`, `isInfoEnabled()`, `isDebugEnabled()`. */
  predicate IsSeverityEnabled(v: View, s: Severity)
  {
    ViewIsEnabled(v, SlotOf(s))
  }

  /** Every logger's `isEnabled` agrees with the gate applied to the level it reports. */
  lemma ReportedLevelAgreesWithGate(v: View, l: Level)
    ensures ViewIsEnabled(v, l) <==> IsEnabled(l, GetLevel(v))
    ensures forall s :: IsSeverityEnabled(v, s) <==> IsEnabled(SlotOf(s), GetLevel(v))
  {
  }

  /**
   * One action of a `batch` callback, in the order the callback performs it:
   * a call on a writer of the capturing logger (or on the capturing writer),
   * a call on a writer of the enclosing logger, `setLevel` on the enclosing
   * logger, or a nested `batch` on the capturing logger or writer. `now` is
   * what the clock returns at that call. A null level is `Adjust(None)`; a
   * nested `batch(null)` is `NullReuse`.
   */
  datatype Step =
    | Capture(slot: Level, call: Call, now: Instant)
    | Emit(slot: Level, writerCall: WriterCall, now: Instant)
    | Adjust(level: Option<Level>)
    | Reuse(steps: seq<Step>)
    | NullReuse

  /** A convenience call on a writer of the enclosing logger, as a callback step. */
  function OnLogger(env: Env, c: Convenience, now: Instant): Step
  {
    var (level, wc) := Route(env, c);
    Emit(level, wc, now)
  }

  /** A convenience call on the capturing logger; its printf-style calls are not modelled. */
  function OnCapturing(env: Env, c: Convenience, now: Instant): Step
    requires !c.Printf?
  {
    var (level, wc) := Route(env, c);
    Capture(level, wc.call, now)
  }

  /** No call in the callback passes a null message or format. */
  predicate NoNullArgument(steps: seq<Step>)
    decreases steps
  {
    forall i | 0 <= i < |steps| :: StepHasNoNull(steps[i])
  }

  predicate StepHasNoNull(s: Step)
    decreases s
  {
    match s
    case Capture(_, call, _) => call.body.Some?
    case Emit(_, wc, _) => !PassesNull(wc)
    case Adjust(level) => level.Some?
    case Reuse(inner) => NoNullArgument(inner)
    case NullReuse => false
  }
}
