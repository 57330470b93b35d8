/**
 * What the pipelines borrow from the JDK and from code outside this model:
 * message rendering, printf formatting, stack traces, logger-name
 * abbreviation and the conversion of an instant to date-time fields.
 * Each is a total function held by `Env`, so every statement about the
 * pipelines holds for whatever those collaborators produce.
 */
module Collaborators {
  import Dates
  import opened Wrappers

  /** A deferred, locale-aware message (`LogMessage`). */
  type LogMessage(==, !new)
  /** A cause attached to an emission (`Throwable`). */
  type Throwable(==, !new)
  /** A format argument (`Object`). */
  type Arg(==, !new)
  /** A point on the clock (`Instant`). */
  type Instant(==, !new)

  datatype Zone = Zone(id: string)
  datatype Locale = Locale(tag: string)

  /** `ZoneOffset.UTC`. */
  const UTC: Zone := Zone("Z")

  /** The platform line separator written by `println`. */
  const NL: string := "\n"

  datatype Env = Env(
    /** `LogMessage.appendTo(locale, out)`. */
    render: (LogMessage, Locale) -> string,
    /** `PrintWriter.printf(format, args)`, which formats with the process default locale. */
    printf: (string, seq<Arg>) -> string,
    /** `LogMessage.patternFormat(pattern, args)`. */
    patternFormat: (string, seq<Arg>) -> LogMessage,
    /** `Throwable.printStackTrace(out)`. */
    stackTrace: Throwable -> string,
    /** `NameAbbreviator.forPattern("1.").abbreviate(name)`. */
    abbreviate: string -> string,
    /** `instant.atZone(zone)` read as the fields the date formatter prints. */
    fields: (Instant, Zone) -> Dates.DateTime,
    /** `Locale.getDefault()`. */
    defaultLocale: Locale)

  /** The character sink: everything written so far and how many times it was flushed. */
  datatype Sink = Sink(out: string, flushes: nat)

  function Write(sink: Sink, text: string): Sink
  {
    sink.(out := sink.out + text)
  }

  function Flush(sink: Sink): Sink
  {
    sink.(flushes := sink.flushes + 1)
  }

  /** What follows the message line: the cause's stack trace, or nothing. */
  function Trace(env: Env, cause: Option<Throwable>): string
  {
    match cause
    case None => ""
    case Some(t) => env.stackTrace(t)
  }
}
