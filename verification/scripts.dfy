/**
 * Sequences of convenience calls on a logger, as the repository's own tests
 * make them: each call with the text it logs, the cause it passes and what
 * the clock returns at the call.
 */
module Scripts {
  import opened Wrappers
  import opened Levels
  import opened Collaborators
  import opened Api

  /** One convenience call, the text it logs and its cause, and the clock value read at the call. */
  datatype Said = Said(call: Convenience, text: string, cause: Option<Throwable>, now: Instant)

  /**
   * The call logs `text` with `cause` on a logger whose locale is `locale`:
   * its message is not null, and the text is what the overload renders.
   */
  predicate Says(env: Env, locale: Locale, s: Said)
  {
    match s.call
    case Plain(_, body) => body == Some(Text(s.text)) && s.cause.None?
    case WithCause(_, body, cause) => body == Some(Text(s.text)) && cause == s.cause
    case Pattern(_, pattern, args) => env.render(env.patternFormat(pattern, args), locale) == s.text && s.cause.None?
    case Printf(_, format, args) => format.Some? && env.printf(format.value, args) == s.text && s.cause.None?
  }

  /** The calls as callback steps on the enclosing logger, in order. */
  function Calls(env: Env, said: seq<Said>): (steps: seq<Step>)
    decreases |said|
  {
    if |said| == 0 then [] else [OnLogger(env, said[0].call, said[0].now)] + Calls(env, said[1..])
  }

  /**
   * The callback of the batched test: `batchLogger.info(b1)`, then
   * `logger.info(m3)` on the enclosing logger, then the pattern call
   * `batchLogger.warn(pattern, args)`, then `logger.setLevel(INFO)`.
   */
  function Callback(env: Env, b1: string, m3: string, pattern: string, args: seq<Arg>,
                    t2: Instant, t3: Instant, t4: Instant): seq<Step>
  {
    [ OnCapturing(env, Plain(Info, Some(Text(b1))), t2),
      OnLogger(env, Plain(Info, Some(Text(m3))), t3),
      OnCapturing(env, Pattern(Warn, pattern, args), t4),
      Adjust(Some(INFO)) ]
  }
}
