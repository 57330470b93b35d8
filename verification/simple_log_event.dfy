/** `SimpleLogEvent`: one call captured during a batch of the simple pipeline. */
module SimpleLogEvent {
  import opened Wrappers
  import opened Levels
  import opened Collaborators
  import opened Api

  /** Immutable once captured: the capture time, the writer's level, the body and an optional cause. */
  datatype Event = Event(time: Instant, level: Level, body: Body, cause: Option<Throwable>)

  /** The constructor taking pre-rendered text. */
  function OfText(time: Instant, level: Level, text: string, cause: Option<Throwable>): (e: Event)
    ensures MessageOf(e) == None
    ensures Time(e) == time && e.level == level && e.cause == cause
  {
    Event(time, level, Text(text), cause)
  }

  /** The constructor taking a deferred `LogMessage`; it stores no text. */
  function OfMessage(time: Instant, level: Level, message: LogMessage, cause: Option<Throwable>): (e: Event)
    ensures MessageOf(e) == Some(message) && !e.body.Text?
    ensures Time(e) == time && e.level == level && e.cause == cause
  {
    Event(time, level, Message(message), cause)
  }

  /** `time()`. */
  function Time(e: Event): Instant
  {
    e.time
  }

  /** `message()`: null for an event built from text. */
  function MessageOf(e: Event): Option<LogMessage>
  {
    match e.body
    case Text(_) => None
    case Message(m) => Some(m)
  }

  /** `formattedMessage(locale)`: the stored text if there is one, else the message rendered for `locale`. */
  function FormattedMessage(env: Env, e: Event, locale: Locale): string
  {
    match e.body
    case Text(t) => t
    case Message(m) => env.render(m, locale)
  }

  /** A text event formats as its text, verbatim, for every locale. */
  lemma TextEventFormatsVerbatim(env: Env, time: Instant, level: Level, text: string, cause: Option<Throwable>)
    ensures forall locale :: FormattedMessage(env, OfText(time, level, text, cause), locale) == text
  {
  }

  /** A message event formats as the message rendered for the requested locale. */
  lemma MessageEventRendersPerLocale(env: Env, time: Instant, level: Level, m: LogMessage, cause: Option<Throwable>)
    ensures forall locale :: FormattedMessage(env, OfMessage(time, level, m, cause), locale) == env.render(m, locale)
  {
  }
}
