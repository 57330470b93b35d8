# logl — a Dafny model of the logging core

This project models the deterministic core of logl, a small Java logging
library. It covers two output pipelines that share one `Logger` interface.

- **Simple pipeline** (`SimpleLogger`, `SimpleLoggerImpl`, `SimpleLogWriter`,
  `SimpleLogEvent`). Each enabled call prints one line: a 28-character
  timestamp (`DateFormatter`), the level name right-aligned in a six-column
  field, ` [name] `, the message and a line separator. When the call has a
  cause, the stack trace follows. The logger name is abbreviated once, when
  the logger is made. Direct calls never flush.
- **Unformatted pipeline** (`UnformattedLogger`, `UnformattedLoggerImpl`,
  `UnformattedLogWriter`, `UnformattedLogEvent`). Each enabled call prints
  the message, a line separator and, if there is one, the cause's stack
  trace. With auto-flush on, every enabled call flushes.
- **Level gating** (`Levels`). Level X is enabled at current level C exactly
  when X's ordinal is at most C's. NONE silences every writer and DEBUG
  admits all.
- **`Logger` interface defaults** (`Api`). `writer(level)` maps each level to
  its slot, and NONE to the null writer. Each convenience overload is
  routed to the slot's `log`/`logf`. A batch callback's calls are modelled
  as a script of steps.
- **Batches** (`SimpleBatch`, `UnformattedBatch`).
  - Calls on the capturing logger or writer become events, at any level.
  - Calls on the enclosing logger take effect at once.
  - When the callback returns, the events are drained through
    `writeEvents`. The drain filters against the level in force at that
    moment and flushes once.
  - A call with a null argument throws. The callback stops there, its
    direct effects so far stay, and nothing captured is drained.
- **Builders and providers** (`SimpleLogger`, `UnformattedLogger`). Setters
  reject null and change only their own field. A provider creates one
  logger per name and hands the same logger back on every later request.
  A level set on that logger is what every later request for the name sees.
- **Scenarios** (`SimpleScenarios`, `UnformattedScenarios`). Both test
  classes' message, exception and batch tests, restated over the model.
  Each lemma proves the exact text, and the flush count, that the test
  expects.

Collaborators outside the core are fields of one `Env` value passed to every
operation:
- rendering a `LogMessage` for a locale;
- `printf`;
- pattern formatting;
- printing a stack trace;
- name abbreviation;
- converting an instant to date-time fields;
- the default locale.

The clock is a parameter: each call carries the instant the time supplier
returns. Output goes to a `Sink` that records the text written and the
number of flushes. A thrown `NullPointerException` is the `Rejected` outcome.

Where the source and the library's own description differ, the model
follows the source:
- Inside a batch, the capturing `BatchLogger` captures at every level. Its
  constructor consults its own `isEnabled`, which is always true.
  Filtering happens only when the batch is drained.
- `logf` on the simple pipeline formats with the process default locale,
  not the logger's locale, because it goes through `PrintWriter.printf`.
- The simple pipeline never flushes on a direct call. Only a batch drain
  flushes, and only when auto-flush is on.

## Model

| member | source | states |
|---|---|---|
| Levels.Name | logl/src/main/java/org/logl/SimpleLoggerImpl.java:202-210 | a level name is four or five characters, five exactly for ERROR and DEBUG, so the six-column padding is one or two spaces |
| Levels.EnabledWritersArePrefix | logl/src/main/java/org/logl/SimpleLoggerImpl.java:61-66 | the enabled writer levels are exactly the first `ordinal(current)` of ERROR, WARN, INFO, DEBUG |
| Levels.EnabledMonotone | logl/src/main/java/org/logl/SimpleLoggerImpl.java:61-66 | raising the current level never disables a level that was enabled |
| Levels.EnabledDownwardClosed | logl/src/main/java/org/logl/SimpleLoggerImpl.java:61-65 | every level below an enabled level is enabled too |
| Levels.NoneSilencesDebugAdmitsAll | logl/src/main/java/org/logl/UnformattedLoggerImpl.java:53-57 | at NONE no real level is enabled; at DEBUG every level is |
| Api.ViewEnabled | logl/src/main/java/org/logl/SimpleLoggerImpl.java:251-255 | a null level throws, for the capturing logger too; otherwise the answer agrees with the level the logger reports |
| Api.Writer | api/src/main/java/org/logl/Logger.java:40-53 | `writer(level)` is the null writer exactly for NONE, and otherwise the writer of that very level |
| Api.WriterOf | api/src/main/java/org/logl/Logger.java:40-53 | `writer(null)` throws; any other level gets the null writer exactly for NONE and otherwise the writer of that level |
| Api.Route | api/src/main/java/org/logl/Logger.java:68-150 | each convenience overload goes to its severity's writer: plain and cause overloads to `log`, the pattern overload to `log` of the pattern-formatted message, the `f` overload to `logf` with the same format and arguments |
| Api.ReportedLevelAgreesWithGate | logl/src/main/java/org/logl/SimpleLoggerImpl.java:246-256 | what a logger reports from `getLevel` agrees with its `isEnabled` and `isXEnabled` answers, for the adjustable and for the capturing logger |
| SimpleLogEvent.OfText | logl/src/main/java/org/logl/SimpleLogEvent.java:14-20 | a text event has no message and keeps its time, level and cause |
| SimpleLogEvent.OfMessage | logl/src/main/java/org/logl/SimpleLogEvent.java:22-28 | a message event exposes its message and keeps its time, level and cause |
| SimpleLogEvent.TextEventFormatsVerbatim | logl/src/main/java/org/logl/SimpleLogEvent.java:38-51 | a text event formats to its text in every locale |
| SimpleLogEvent.MessageEventRendersPerLocale | logl/src/main/java/org/logl/SimpleLogEvent.java:38-51 | a message event formats to the message rendered for the asked locale |
| UnformattedLogEvent.OfText | logl/src/main/java/org/logl/UnformattedLogEvent.java:12-17 | a text event has no message and keeps its level and cause |
| UnformattedLogEvent.OfMessage | logl/src/main/java/org/logl/UnformattedLogEvent.java:19-24 | a message event exposes its message and keeps its level and cause |
| UnformattedLogEvent.TextEventFormatsVerbatim | logl/src/main/java/org/logl/UnformattedLogEvent.java:30-43 | a text event formats to its text in every locale |
| UnformattedLogEvent.MessageEventRendersPerLocale | logl/src/main/java/org/logl/UnformattedLogEvent.java:30-43 | a message event formats to the message rendered for the asked locale |
| Dates.YearRem | logl/src/main/java/org/logl/DateFormatter.java:35 | Java's `year % 10000` truncates toward zero: the remainder has the year's sign, and years of at most four digits are unchanged |
| Dates.TwoDigits | logl/src/main/java/org/logl/DateFormatter.java:16-21 | the two-digit table entry for 0..60 is two digits reading back as the index |
| Dates.ThreeDigits | logl/src/main/java/org/logl/DateFormatter.java:23-28 | the three-digit table entry for 0..999 is three digits reading back as the index |
| Dates.CommonYear | logl/src/main/java/org/logl/DateFormatter.java:9-14 | the common-year table entry at index i is four digits reading back as 1900 + i |
| Dates.IntText | logl/src/main/java/org/logl/DateFormatter.java:35 | `Integer.toString` is the decimal digits of the value, with a leading minus for a negative one |
| Dates.YearTableAgreesWithGeneralPath | logl/src/main/java/org/logl/DateFormatter.java:31-38 | the table shortcut for 1900..2099 prints what the space-padded general path would |
| Dates.CommonYearsPrintThemselves | logl/src/main/java/org/logl/DateFormatter.java:31-38 | a year in 1900..2099 is printed as its own four digits |
| Dates.PaddedYearReadsBack | logl/src/main/java/org/logl/DateFormatter.java:31-38 | a non-negative year is printed as leading spaces, then digits reading back as the year modulo 10000 |
| Dates.YearTextIsPaddedRemainder | logl/src/main/java/org/logl/DateFormatter.java:31-38 | every year, negative ones included, prints as leading spaces and then `Integer.toString(year % 10000)` with Java's sign |
| Dates.OffsetText | logl/src/main/java/org/logl/DateFormatter.java:52-62 | the offset is a sign, then two digits of hours and two digits of minutes of its absolute value |
| Dates.OffsetDropsSeconds | logl/src/main/java/org/logl/DateFormatter.java:52-62 | the printed offset is the absolute offset truncated to whole minutes |
| Dates.DateTimesAreFormattable | logl/src/main/java/org/logl/DateFormatter.java:39-62 | every valid date-time stays inside the digit tables, so formatting never indexes out of bounds |
| Dates.DatePart | logl/src/main/java/org/logl/DateFormatter.java:31-42 | the date is year, dash, two-digit month, dash, two-digit day |
| Dates.TimePart | logl/src/main/java/org/logl/DateFormatter.java:44-48 | the time is two-digit hour, minute and second separated by colons |
| Dates.FormatDate | logl/src/main/java/org/logl/DateFormatter.java:30-63 | every timestamp is exactly 28 characters |
| Dates.FormatDateLayout | logl/src/main/java/org/logl/DateFormatter.java:30-63 | the timestamp's separators sit at fixed columns, and each field's text sits in its own column range |
| Dates.FormatDateYearReadsBack | logl/src/main/java/org/logl/DateFormatter.java:30-38 | the stamp's first four columns are leading spaces and then the year's `year % 10000`, sign included |
| Dates.FormatDateReadsBack | logl/src/main/java/org/logl/DateFormatter.java:30-63 | the month, day, hour, minute, second, millisecond and offset read back from the timestamp as the date-time's values |
| SimpleLoggerImpl.SetLevel | logl/src/main/java/org/logl/SimpleLoggerImpl.java:55-59 | a null level throws and leaves the logger as it was; otherwise `setLevel` returns the previous level, installs the new one and changes nothing else |
| SimpleLoggerImpl.Enabled | logl/src/main/java/org/logl/SimpleLoggerImpl.java:61-65 | a null level throws; otherwise a level is enabled iff its ordinal is at most the current level's |
| SimpleLoggerImpl.GateFollowsSetLevel | logl/src/main/java/org/logl/SimpleLoggerImpl.java:55-65 | after `setLevel(l)`, `isEnabled` answers by comparison with `l` |
| SimpleLoggerImpl.PaddingWidth | logl/src/main/java/org/logl/SimpleLoggerImpl.java:202-210 | in a prefix, WARN and INFO get two spaces before the name and ERROR and DEBUG one |
| SimpleLoggerImpl.Prefix | logl/src/main/java/org/logl/SimpleLoggerImpl.java:202-210 | the prefix is 38 characters plus the logger name |
| SimpleLoggerImpl.PrefixIsLaidOut | logl/src/main/java/org/logl/SimpleLoggerImpl.java:202-210 | the prefix is the timestamp, the padded level name, and the name in brackets, each in its columns |
| SimpleLoggerImpl.PrefixLayout | logl/src/main/java/org/logl/SimpleLoggerImpl.java:202-210 | any 28-character date followed by the padding, the level name and the bracketed name has the prefix layout |
| SimpleLoggerImpl.LineIsLaidOut | logl/src/main/java/org/logl/SimpleLoggerImpl.java:134-151 | a line is the prefix, the text, a line separator and the cause's trace |
| SimpleLoggerImpl.WriteLineIsLaidOut | logl/src/main/java/org/logl/SimpleLoggerImpl.java:101-113 | writing a line keeps what was written before, appends exactly that line and does not flush |
| SimpleLoggerImpl.Log | logl/src/main/java/org/logl/SimpleLoggerImpl.java:87-113 | a disabled level writes nothing; the direct path never flushes |
| SimpleLoggerImpl.LogAppendsLine | logl/src/main/java/org/logl/SimpleLoggerImpl.java:87-113 | at an enabled level, `log` appends one line of the rendered message with no trace |
| SimpleLoggerImpl.LogWithCause | logl/src/main/java/org/logl/SimpleLoggerImpl.java:115-151 | a null cause is the same as the plain call, a disabled level writes nothing, and nothing is flushed |
| SimpleLoggerImpl.LogWithCauseAppendsLine | logl/src/main/java/org/logl/SimpleLoggerImpl.java:115-151 | at an enabled level, the line of the message is followed by the cause's stack trace |
| SimpleLoggerImpl.Logf | logl/src/main/java/org/logl/SimpleLoggerImpl.java:153-165 | a disabled level writes nothing; `logf` never flushes |
| SimpleLoggerImpl.LogfAppendsLine | logl/src/main/java/org/logl/SimpleLoggerImpl.java:153-165 | at an enabled level, `logf` appends one line of the printf text |
| SimpleLoggerImpl.EventLine | logl/src/main/java/org/logl/SimpleLoggerImpl.java:181-194 | rendering a message event or formatting a text event gives the same text, printed with the event's capture time and cause |
| SimpleLoggerImpl.AdmittedKeepsEnabled | logl/src/main/java/org/logl/SimpleLoggerImpl.java:171-179 | the drain keeps exactly the events whose level is enabled at the level read when draining starts |
| SimpleLoggerImpl.DrainIsFilterThenLines | logl/src/main/java/org/logl/SimpleLoggerImpl.java:171-196 | the drain loop prints the lines of the admitted events, in capture order |
| SimpleLoggerImpl.DrainConcat | logl/src/main/java/org/logl/SimpleLoggerImpl.java:171-196 | draining two event lists one after the other prints the same as draining them joined |
| SimpleLoggerImpl.WriteEvents | logl/src/main/java/org/logl/SimpleLoggerImpl.java:167-200 | an empty list writes nothing and does not flush; otherwise the admitted lines are appended and there is one flush iff auto-flush is on |
| SimpleLoggerImpl.WriteEventsLoop | logl/src/main/java/org/logl/SimpleLoggerImpl.java:167-200 | the event-by-event loop over the list computes exactly `writeEvents` |
| SimpleLogWriter.WriterLog | logl/src/main/java/org/logl/SimpleLogWriter.java:22-44 | a null message throws and writes nothing; otherwise the call is the logger's `log` at the writer's level |
| SimpleLogWriter.WriterLogf | logl/src/main/java/org/logl/SimpleLogWriter.java:46-50 | a null format throws and writes nothing; otherwise the call is the logger's `logf` |
| SimpleLogWriter.Dispatch | logl/src/main/java/org/logl/SimpleLogWriter.java:22-50 | a writer call throws exactly on a null message or format, and never flushes |
| SimpleLogWriter.CaptureCall | logl/src/main/java/org/logl/SimpleLogWriter.java:71-93 | a capturing writer turns each non-null call into one event with the capture time, its level, the message and the cause |
| UnformattedLoggerImpl.SetLevel | logl/src/main/java/org/logl/UnformattedLoggerImpl.java:47-51 | a null level throws and leaves the logger as it was; otherwise `setLevel` returns the previous level, installs the new one and changes nothing else |
| UnformattedLoggerImpl.Enabled | logl/src/main/java/org/logl/UnformattedLoggerImpl.java:53-57 | a null level throws; otherwise a level is enabled iff its ordinal is at most the current level's |
| UnformattedLoggerImpl.GateFollowsSetLevel | logl/src/main/java/org/logl/UnformattedLoggerImpl.java:47-57 | after `setLevel(l)`, `isEnabled` answers by comparison with `l` |
| UnformattedLoggerImpl.LineIsLaidOut | logl/src/main/java/org/logl/UnformattedLoggerImpl.java:99-114 | a line is the text, a line separator and the trace, each in its own position |
| UnformattedLoggerImpl.EventLine | logl/src/main/java/org/logl/UnformattedLoggerImpl.java:99-114 | rendering a message event or formatting a text event gives the same text, followed by the cause's trace |
| UnformattedLoggerImpl.AdmittedKeepsEnabled | logl/src/main/java/org/logl/UnformattedLoggerImpl.java:92-98 | the drain keeps exactly the events whose level is enabled at the level read when draining starts |
| UnformattedLoggerImpl.DrainIsFilterThenLines | logl/src/main/java/org/logl/UnformattedLoggerImpl.java:92-116 | the drain loop prints the lines of the admitted events, in capture order |
| UnformattedLoggerImpl.WriteEvents | logl/src/main/java/org/logl/UnformattedLoggerImpl.java:87-120 | an empty list writes nothing and does not flush; otherwise the admitted lines are appended and there is one flush iff auto-flush is on |
| UnformattedLogWriter.WriterLog | logl/src/main/java/org/logl/UnformattedLogWriter.java:33-117 | a null message throws; a disabled level writes nothing; otherwise the rendered text, a separator and the trace are appended, with one flush iff auto-flush; a null cause is the plain call |
| UnformattedLogWriter.WriterLogf | logl/src/main/java/org/logl/UnformattedLogWriter.java:119-134 | a null format throws; a disabled level writes nothing; otherwise the printf text and a separator are appended, with one flush iff auto-flush |
| UnformattedLogWriter.Dispatch | logl/src/main/java/org/logl/UnformattedLogWriter.java:33-134 | a writer call throws exactly on a null message or format and flushes exactly when it printed with auto-flush on |
| UnformattedLogWriter.CaptureCall | logl/src/main/java/org/logl/UnformattedLogWriter.java:153-175 | a capturing writer turns each non-null call into one event with its level, the message and the cause |
| SimpleBatch.CapturingWriter | logl/src/main/java/org/logl/SimpleLoggerImpl.java:235-244 | the capturing logger has a capturing writer at every real level, and a capturing writer captures at its own level |
| SimpleBatch.RunSplits | logl/src/main/java/org/logl/SimpleLoggerImpl.java:221-227 | without a null argument, a callback's effect is its direct effects on the enclosing logger plus its captured events in call order |
| SimpleBatch.RunConcat | logl/src/main/java/org/logl/SimpleLoggerImpl.java:221-227 | running two pieces of a callback one after the other is running them joined |
| SimpleBatch.NestedBatchRunsInline | logl/src/main/java/org/logl/SimpleLoggerImpl.java:277-281 | a nested batch on the capturing logger runs its callback in place |
| SimpleBatch.Finish | logl/src/main/java/org/logl/SimpleLoggerImpl.java:221-227 | a callback that threw leaves its events undrained; otherwise they are drained; the logger's level is what the callback left |
| SimpleBatch.Batch | logl/src/main/java/org/logl/SimpleLoggerImpl.java:221-227 | a null callback throws and changes nothing; otherwise `batch` is the callback's direct effects followed by `writeEvents` of everything it captured, against the level it left behind |
| SimpleBatch.WriterBatch | logl/src/main/java/org/logl/SimpleLogWriter.java:52-58 | a writer's `batch` is the same, with every capture at the writer's level |
| SimpleBatch.RunAfterThrow | logl/src/main/java/org/logl/SimpleLoggerImpl.java:221-227 | once a call has thrown, the rest of the callback does nothing |
| SimpleBatch.StopsAtThrow | logl/src/main/java/org/logl/SimpleLoggerImpl.java:221-227 | a callback runs up to its first throwing call, keeps the effects and captures before it, and is marked as thrown |
| SimpleBatch.BatchStopsAtThrow | logl/src/main/java/org/logl/SimpleLoggerImpl.java:221-227 | a batch whose callback makes a call with a null argument throws, keeps the direct effects before that call and drains nothing |
| SimpleBatch.WriterBatchStopsAtThrow | logl/src/main/java/org/logl/SimpleLogWriter.java:52-58 | the same for a writer's batch |
| SimpleBatch.NullWriterRejectsNull | api/src/main/java/org/logl/Logger.java:40-53 | a null message to the null writer of NONE ends the batch with nothing drained and nothing written |
| SimpleBatch.WriterCapturesCarryItsLevel | logl/src/main/java/org/logl/SimpleLogWriter.java:60-99 | every event a writer's batch captures carries that writer's level, nested batches included |
| SimpleBatch.NestedBatchIsInline | logl/src/main/java/org/logl/SimpleLoggerImpl.java:277-281 | a batch whose callback starts with a nested batch equals the batch of the flattened callback |
| UnformattedBatch.CapturingWriter | logl/src/main/java/org/logl/UnformattedLoggerImpl.java:128-137 | the capturing logger has a capturing writer at every real level, and a capturing writer captures at its own level |
| UnformattedBatch.RunSplits | logl/src/main/java/org/logl/UnformattedLoggerImpl.java:79-85 | without a null argument, a callback's effect is its direct effects plus its captured events in call order |
| UnformattedBatch.RunConcat | logl/src/main/java/org/logl/UnformattedLoggerImpl.java:79-85 | running two pieces of a callback one after the other is running them joined |
| UnformattedBatch.NestedBatchRunsInline | logl/src/main/java/org/logl/UnformattedLoggerImpl.java:170-174 | a nested batch on the capturing logger runs its callback in place |
| UnformattedBatch.Finish | logl/src/main/java/org/logl/UnformattedLoggerImpl.java:79-85 | a callback that threw leaves its events undrained; otherwise they are drained; the logger's level is what the callback left |
| UnformattedBatch.Batch | logl/src/main/java/org/logl/UnformattedLoggerImpl.java:79-85 | a null callback throws and changes nothing; otherwise `batch` is the callback's direct effects followed by `writeEvents` of everything it captured, against the level it left behind |
| UnformattedBatch.WriterBatch | logl/src/main/java/org/logl/UnformattedLogWriter.java:136-142 | a writer's `batch` is the same, with every capture at the writer's level |
| UnformattedBatch.RunAfterThrow | logl/src/main/java/org/logl/UnformattedLoggerImpl.java:79-85 | once a call has thrown, the rest of the callback does nothing |
| UnformattedBatch.StopsAtThrow | logl/src/main/java/org/logl/UnformattedLoggerImpl.java:79-85 | a callback runs up to its first throwing call, keeps the effects and captures before it, and is marked as thrown |
| UnformattedBatch.BatchStopsAtThrow | logl/src/main/java/org/logl/UnformattedLoggerImpl.java:79-85 | a batch whose callback makes a call with a null argument throws, keeps the direct effects before that call and drains nothing |
| UnformattedBatch.WriterBatchStopsAtThrow | logl/src/main/java/org/logl/UnformattedLogWriter.java:136-142 | the same for a writer's batch |
| UnformattedBatch.NullWriterRejectsNull | api/src/main/java/org/logl/Logger.java:40-53 | a null message to the null writer of NONE ends the batch with nothing drained and nothing written |
| UnformattedBatch.WriterCapturesCarryItsLevel | logl/src/main/java/org/logl/UnformattedLogWriter.java:144-181 | every event a writer's batch captures carries that writer's level, nested batches included |
| UnformattedBatch.NestedBatchIsInline | logl/src/main/java/org/logl/UnformattedLoggerImpl.java:170-174 | a batch whose callback starts with a nested batch equals the batch of the flattened callback |
| SimpleLogger.NewBuilder | logl/src/main/java/org/logl/SimpleLogger.java:94-105 | a new builder is UTC, the default locale, INFO and auto-flush |
| SimpleLogger.WithZone | logl/src/main/java/org/logl/SimpleLogger.java:107-111 | a null zone throws; otherwise only the zone changes |
| SimpleLogger.WithLocale | logl/src/main/java/org/logl/SimpleLogger.java:119-123 | a null locale throws; otherwise only the locale changes |
| SimpleLogger.WithLogLevel | logl/src/main/java/org/logl/SimpleLogger.java:131-135 | a null level throws; otherwise only the level changes |
| SimpleLogger.WithoutAutoFlush | logl/src/main/java/org/logl/SimpleLogger.java:158-161 | auto-flush is switched off and nothing else changes |
| SimpleLogger.SettersCommute | logl/src/main/java/org/logl/SimpleLogger.java:107-161 | setters of different fields can be applied in either order |
| SimpleLogger.ToPrintWriter | logl/src/main/java/org/logl/SimpleLogger.java:169-183 | a new provider keeps the builder's settings and has no loggers |
| SimpleLogger.NewLogger | logl/src/main/java/org/logl/SimpleLoggerImpl.java:35-49 | a new logger takes the abbreviated name, and the zone, locale, auto-flush and level of the builder |
| SimpleLogger.GetLogger | logl/src/main/java/org/logl/SimpleLogger.java:186-199 | `getLogger` answers the registered logger for a known name, and registers a new one for an unknown name; other entries are kept |
| SimpleLogger.GetLoggerIsIdempotent | logl/src/main/java/org/logl/SimpleLogger.java:196-199 | asking twice for the same name gives the same logger and the same registry |
| SimpleLogger.RequestLogger | logl/src/main/java/org/logl/SimpleLogger.java:196-199 | a null name throws and leaves the provider as it was; any other name is answered with the registered logger, made if needed, and every other entry is kept |
| SimpleLogger.SetLevelOf | logl/src/main/java/org/logl/SimpleLogger.java:186-199 | setting the level of a registered logger changes that entry only; a null level throws and changes nothing |
| SimpleLogger.AdjustmentIsShared | logl/src/main/java/org/logl/SimpleLogger.java:186-199 | a level set on a logger handed out earlier is what the next `getLogger` for that name returns; other names are unaffected |
| SimpleLogger.GetLoggersKeepsOnePerName | logl/src/main/java/org/logl/SimpleLogger.java:186-199 | after a sequence of requests, the registry holds one logger per name ever asked for; existing entries are kept; and every answer is the registered logger |
| UnformattedLogger.NewBuilder | logl/src/main/java/org/logl/UnformattedLogger.java:68-78 | a new builder is the default locale, INFO and auto-flush |
| UnformattedLogger.WithLocale | logl/src/main/java/org/logl/UnformattedLogger.java:79-83 | a null locale throws; otherwise only the locale changes |
| UnformattedLogger.WithLogLevel | logl/src/main/java/org/logl/UnformattedLogger.java:91-95 | a null level throws; otherwise only the level changes |
| UnformattedLogger.WithoutAutoFlush | logl/src/main/java/org/logl/UnformattedLogger.java:102-105 | auto-flush is switched off and nothing else changes |
| UnformattedLogger.SettersCommute | logl/src/main/java/org/logl/UnformattedLogger.java:79-105 | setters of different fields can be applied in either order |
| UnformattedLogger.ToPrintWriter | logl/src/main/java/org/logl/UnformattedLogger.java:113-127 | a new provider keeps the builder's settings and has no loggers |
| UnformattedLogger.NewLogger | logl/src/main/java/org/logl/UnformattedLoggerImpl.java:30-40 | a new logger takes the locale, auto-flush and level of the builder |
| UnformattedLogger.NameIsIgnored | logl/src/main/java/org/logl/UnformattedLogger.java:140-143 | the logger's name plays no part in what it is |
| UnformattedLogger.GetLogger | logl/src/main/java/org/logl/UnformattedLogger.java:130-143 | `getLogger` answers the registered logger for a known name, and registers a new one for an unknown name; other entries are kept |
| UnformattedLogger.GetLoggerIsIdempotent | logl/src/main/java/org/logl/UnformattedLogger.java:140-143 | asking twice for the same name gives the same logger and the same registry |
| UnformattedLogger.RequestLogger | logl/src/main/java/org/logl/UnformattedLogger.java:140-143 | a null name throws and leaves the provider as it was; any other name is answered with the registered logger, made if needed, and every other entry is kept |
| UnformattedLogger.SetLevelOf | logl/src/main/java/org/logl/UnformattedLogger.java:130-143 | setting the level of a registered logger changes that entry only; a null level throws and changes nothing |
| UnformattedLogger.AdjustmentIsShared | logl/src/main/java/org/logl/UnformattedLogger.java:130-143 | a level set on a logger handed out earlier is what the next `getLogger` for that name returns; other names are unaffected |
| UnformattedLogger.GetLoggersKeepsOnePerName | logl/src/main/java/org/logl/UnformattedLogger.java:130-143 | after a sequence of requests, the registry holds one logger per name ever asked for; existing entries are kept; and every answer is the registered logger |
| SimpleScenarios.TestStamps | logl/src/test/java/org/logl/SimpleLoggerTest.java:36-37 | the test's instants at UTC print as `2007-12-03 10:15:30.000+0000` and the other stamps the tests expect |
| SimpleScenarios.Emits | logl/src/main/java/org/logl/SimpleLogWriter.java:22-50 | a convenience call on a simple logger writes its line at an enabled level and nothing otherwise, without flushing |
| SimpleScenarios.CallsPrint | logl/src/main/java/org/logl/SimpleLogWriter.java:22-50 | a run of convenience calls prints the enabled calls' lines in call order; the logger and the flush count are unchanged |
| SimpleScenarios.OutputsMessages | logl/src/test/java/org/logl/SimpleLoggerTest.java:25-39 | a default logger prints the INFO and WARN lines the test expects, drops the DEBUG line and does not flush |
| SimpleScenarios.OutputsExceptions | logl/src/test/java/org/logl/SimpleLoggerTest.java:90-123 | a DEBUG logger prints the `errorf`, pattern and cause lines, then the stack trace, as the test expects |
| SimpleScenarios.CallbackCaptures | logl/src/test/java/org/logl/SimpleLoggerTest.java:148-156 | the test's callback captures exactly its two calls on the batch logger, each with its own capture time |
| SimpleScenarios.OutputsBatchedMessages | logl/src/test/java/org/logl/SimpleLoggerTest.java:125-171 | the batched test prints the four lines and the trace the test expects, in that order, and flushes once |
| UnformattedScenarios.Emits | logl/src/main/java/org/logl/UnformattedLogWriter.java:33-134 | a convenience call on an unformatted logger appends its text and separator at an enabled level, flushing per auto-flush |
| UnformattedScenarios.CallsPrint | logl/src/main/java/org/logl/UnformattedLogWriter.java:33-134 | a run of convenience calls appends the enabled calls' text in order, with one flush per enabled call under auto-flush |
| UnformattedScenarios.OutputsMessages | logl/src/test/java/org/logl/UnformattedLoggerTest.java:23-36 | a default logger prints `1output` and `2output` on their own lines, drops the DEBUG call, and flushes twice |
| UnformattedScenarios.OutputsExceptions | logl/src/test/java/org/logl/UnformattedLoggerTest.java:80-112 | a DEBUG logger prints the three texts on their own lines and then the stack trace, flushing once per call |
| UnformattedScenarios.CallbackCaptures | logl/src/test/java/org/logl/UnformattedLoggerTest.java:131-141 | the test's callback captures exactly its two calls on the batch logger |
| UnformattedScenarios.OutputsBatchedMessages | logl/src/test/java/org/logl/UnformattedLoggerTest.java:114-155 | the batched test prints the four texts and the trace the test expects, and flushes three times |

## Left out

- Concurrency. `synchronized` blocks, the `AtomicReference` level and the
  `ConcurrentHashMap` registry are modelled as plain sequential state.
  Interleavings of concurrent calls are not modelled.
- `LogMessage` formatting, `printf`, pattern formatting, `printStackTrace`
  and `NameAbbreviator` are opaque functions of `Env`. Their texts are taken
  as given. The scenarios state what the tests assume of them, for example
  the abbreviation of `org.logl.SimpleLogger`.
- Formatting failures. `render` and `printf` are total, so neither an
  `IllegalFormatException` from `printf` after the prefix is already
  written (a partial line) nor a failing message in the middle of a drain
  is modelled. In Java such a failure stops the drain: the lines already
  printed stay, the remaining events are discarded, and there is no flush.
- `SimpleLogWriter.CaptureCall` and `UnformattedLogWriter.CaptureCall` take
  the text as its value when the call is captured. Java keeps the caller's
  `CharSequence` and reads it only when the batch drains, so a
  `StringBuilder` changed later in the callback prints its later contents.
- `Dates.TwoDigits` and `Dates.ThreeDigits` assume a default locale whose
  zero digit is `'0'`. The Java tables are filled by `String.format`, which
  uses the default locale's digits, for example Arabic-Indic ones.
- `Api.Writer` takes a non-null level. A null level is handled by
  `Api.WriterOf`.
- The pattern overload's `LogWriter.log(pattern, args)` default is not part
  of this model. It is taken to log `LogMessage.patternFormat(pattern, args)`.
- The `LogWriter` supplier overloads and `logf` on the capturing writers
  are defaults of `LogWriter`, which is not part of this model. A
  capturing-writer `logf` step cannot be formed (`OnCapturing` requires a
  non-`f` call).
- `NullLogger`, `NullLogWriter`, `Level` and `AdjustableLogger` are not
  part of this model. The null writer is a `WriterRef` case that writes
  nothing and, like the level writers, rejects a null message or format
  (`Api.PassesNull`). A null cause to it is taken as accepted, as the level
  writers accept it. Levels are declared NONE, ERROR, WARN, INFO, DEBUG in ordinal
  order.
- The clock. `usingCurrentTimeSupplier` is not an operation: each call
  carries the instant the supplier would return.
- `java.time` zone conversion. `Env.fields` gives the date-time fields.
  `Locale.getDefault()` is `Env.defaultLocale`, and the line separator is
  the constant `NL`.
- Writer I/O. `toPrintWriter(Supplier)`, the `IOException` wrapping in
  `writeMessage` and the writer itself are not modelled. The sink only
  records text and flushes.
- `getLogger(Class)` is a default of `LoggerProvider`, which is not part of
  this model. The scenarios ask for the class's name as a string.
- `SimpleLogger.GetLogger` and `UnformattedLogger.GetLogger`: the provider
  keeps a snapshot of the builder. The Java provider holds a reference to
  the mutable builder, so builder changes made after `toPrintWriter` would
  reach later loggers. A null name is handled by `RequestLogger`.
- A callback's call to `batch` on the enclosing logger or on one of its
  writers is not a step. In Java that nested batch drains inside the
  callback. `Reuse` is only the capturing logger's or writer's own `batch`,
  which runs inline.
- Logger identity. Java hands out one shared mutable logger per name; the
  model keeps that logger's state in the provider, and `SetLevelOf` changes
  it there. A level change made inside a batch is part of the batch's
  returned state and is not written back into a provider.
- Callbacks that catch the `NullPointerException` thrown by one of their own
  calls and carry on. The modelled callback ends at its first throwing call,
  as an uncaught exception would end it.
- `Dates.FormatDate` requires fields inside their documented ranges
  (`IsDateTime`). It also excludes years whose text after `% 10000` is five
  characters (-9999..-1000). For those years `write("   ", 0, -1)` has a
  negative length, and the outcome depends on the sink: a `CharArrayWriter`
  or `StringWriter` throws, while a `PrintWriter` over a `BufferedWriter`
  writes nothing for it and prints a 29-character stamp with a
  five-character year. Neither outcome is modelled.
- `SimpleLoggerImpl.Admitted` and `UnformattedLoggerImpl.Admitted` only
  bound their length in their own contracts. Which events are kept is
  stated by `AdmittedKeepsEnabled`.
- `SimpleLogger.GetLoggers` and `UnformattedLogger.GetLoggers` only state
  the answer count in their own contracts. The registry they leave is
  stated by `GetLoggersKeepsOnePerName`.
- The tests for formatted messages and locale-formatted messages are not
  restated as scenarios. They exercise only the opaque message formatting.
