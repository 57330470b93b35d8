/** `UnformattedLogEvent`: one call captured during a batch of the unformatted pipeline; it has no timestamp. */
module UnformattedLogEvent {
  import opened Wrappers
  import opened Levels
  import opened Collaborators
  import opened Api

  datatype Event = Event(level: Level, body: Body, cause: Option<Throwable>)

  /** The constructor taking pre-rendered text. */
  function OfText(level: Level, text: string, cause: Option<Throwable>): (e: Event)
    ensures MessageOf(e) == None
    ensures e.level == level && e.cause == cause
  {
    Event(level, Text(text), cause)
  }

  /** The constructor taking a deferred `LogMessage`; it stores no text. */
  function OfMessage(level: Level, message: LogMessage, cause: Option<Throwable>): (e: Event)
    ensures MessageOf(e) == Some(message) && !e.body.Text?
    ensures e.level == level && e.cause == cause
  {
    Event(level, Message(message), cause)
  }

  /** `message()`: null for an event built from text. */
  function MessageOf(e: Event): Option<LogMessage>
  {
    match e.body
    case Text(_) => None
    case Message(m) => Some(m)
  }

  /** `formattedMessage(locale)`. */
  function FormattedMessage(env: Env, e: Event, locale: Locale): string
  {
    match e.body
    case Text(t) => t
    case Message(m) => env.render(m, locale)
  }

  /** A text event formats as its text, verbatim, for every locale. */
  lemma TextEventFormatsVerbatim(env: Env, level: Level, text: string, cause: Option<Throwable>)
    ensures forall locale :: FormattedMessage(env, OfText(level, text, cause), locale) == text
  {
  }

  /** A message event formats as the message rendered for the requested locale. */
  lemma MessageEventRendersPerLocale(env: Env, level: Level, m: LogMessage, cause: Option<Throwable>)
    ensures forall locale :: FormattedMessage(env, OfMessage(level, m, cause), locale) == env.render(m, locale)
  {
  }
}
