/**
 * `batch` in the simple pipeline. The callback receives a capturing logger
 * (`SimpleLoggerImpl.batch`) or a capturing writer (`SimpleLogWriter.batch`);
 * every call on it appends one event to a list, while calls on the
 * enclosing logger take effect at once. When the callback returns, the
 * list is drained through `writeEvents` against the level in force then.
 */
module SimpleBatch {
  import opened Wrappers
  import opened Levels
  import opened Collaborators
  import opened Api
  import opened SimpleLogEvent
  import Impl = SimpleLoggerImpl
  import SimpleLogWriter

  /** What the callback captures into: the capturing logger, or the capturing writer of one level. */
  datatype Capturer = Everything | OneLevel(level: Level)

  /** `BatchLogger.isEnabled(level)`: true for every level. */
  predicate BatchIsEnabled(l: Level)
  {
    true
  }

  /**
   * The capturing writer a call on slot `slot` reaches, or `None` for the
   * null writer. The capturing logger's constructor asks its own
   * `isEnabled`, which admits every level, so each of the four slots holds
   * a capturing writer whatever the enclosing logger's level. A capturing
   * writer has no slots: every call reaches the writer itself.
   */
  function CapturingWriter(cap: Capturer, slot: Level): (w: Option<Level>)
    ensures cap.Everything? ==> (w.Some? <==> slot != NONE)
    ensures cap.Everything? && w.Some? ==> w.value == slot
    ensures cap.OneLevel? ==> w == Some(cap.level)
  {
    match cap
    case OneLevel(l) => Some(l)
    case Everything =>
      match Writer(slot)
      case NullWriter => None
      case LevelWriter(l) => if BatchIsEnabled(l) then Some(l) else None
  }

  /** The enclosing logger and the shared sink. */
  datatype State = State(logger: Impl.Logger, sink: Sink)

  /** A callback part-way through: the state, the events captured so far, and whether a call has thrown. */
  datatype Progress = Progress(state: State, events: seq<Event>, rejected: bool)

  /** One step of the callback; once a call has thrown, nothing further happens. */
  function Exec(env: Env, p: Progress, cap: Capturer, step: Step): Progress
    decreases step
  {
    if p.rejected then p
    else
      match step
      case Capture(slot, call, now) =>
        (match CapturingWriter(cap, slot)
         case None => if call.body.None? then p.(rejected := true) else p
         case Some(l) =>
           match SimpleLogWriter.CaptureCall(l, call, now)
           case None => p.(rejected := true)
           case Some(e) => p.(events := p.events + [e]))
      case Emit(slot, wc, now) =>
        (match Writer(slot)
         case NullWriter => if PassesNull(wc) then p.(rejected := true) else p
         case LevelWriter(l) =>
           match SimpleLogWriter.Dispatch(env, p.state.logger, p.state.sink, l, wc, now)
           case Rejected(s) => p.(state := p.state.(sink := s), rejected := true)
           case Returned(s) => p.(state := p.state.(sink := s)))
      case Adjust(level) =>
        (match Impl.SetLevel(p.state.logger, level)
         case Rejected(_) => p.(rejected := true)
         case Returned((_, g)) => p.(state := p.state.(logger := g)))
      case Reuse(inner) => Run(env, p, cap, inner)
      case NullReuse => p.(rejected := true)
  }

  /** The steps of a callback, in order. */
  function Run(env: Env, p: Progress, cap: Capturer, steps: seq<Step>): Progress
    decreases steps
  {
    if |steps| == 0 then p
    else Run(env, Exec(env, p, cap, steps[0]), cap, steps[1..])
  }

  /** The events a callback hands to the capturer, independent of any level. */
  function Captured(cap: Capturer, steps: seq<Step>): seq<Event>
    decreases steps
  {
    if |steps| == 0 then []
    else CapturedBy(cap, steps[0]) + Captured(cap, steps[1..])
  }

  function CapturedBy(cap: Capturer, step: Step): seq<Event>
    decreases step
  {
    match step
    case Capture(slot, call, now) =>
      (match CapturingWriter(cap, slot)
       case None => []
       case Some(l) =>
         match SimpleLogWriter.CaptureCall(l, call, now)
         case None => []
         case Some(e) => [e])
    case Reuse(inner) => Captured(cap, inner)
    case _ => []
  }

  /** What a callback does to the enclosing logger and the sink, with every capture left out. */
  function Direct(env: Env, st: State, steps: seq<Step>): State
    decreases steps
  {
    if |steps| == 0 then st
    else Direct(env, DirectBy(env, st, steps[0]), steps[1..])
  }

  function DirectBy(env: Env, st: State, step: Step): State
    decreases step
  {
    match step
    case Emit(slot, wc, now) =>
      (match Writer(slot)
       case NullWriter => st
       case LevelWriter(l) => st.(sink := SimpleLogWriter.Dispatch(env, st.logger, st.sink, l, wc, now).value))
    case Adjust(level) => st.(logger := Impl.SetLevel(st.logger, level).value.1)
    case Reuse(inner) => Direct(env, st, inner)
    case NullReuse => st
    case Capture(_, _, _) => st
  }

  /**
   * Without a null argument, running a callback is the direct effects on
   * the enclosing logger plus the captured events appended, whatever the
   * levels along the way.
   */
  lemma {:induction false} RunSplits(env: Env, p: Progress, cap: Capturer, steps: seq<Step>)
    requires !p.rejected && NoNullArgument(steps)
    ensures Run(env, p, cap, steps) == Progress(Direct(env, p.state, steps), p.events + Captured(cap, steps), false)
    decreases steps
  {
    if |steps| == 0 {
      assert p.events + [] == p.events;
    } else {
      assert StepHasNoNull(steps[0]);
      ExecSplits(env, p, cap, steps[0]);
      var q := Exec(env, p, cap, steps[0]);
      assert NoNullArgument(steps[1..]) by {
        forall i | 0 <= i < |steps[1..]|
          ensures StepHasNoNull(steps[1..][i])
        {
          assert steps[1..][i] == steps[i + 1];
        }
      }
      RunSplits(env, q, cap, steps[1..]);
      assert p.events + Captured(cap, steps)
          == (p.events + CapturedBy(cap, steps[0])) + Captured(cap, steps[1..]);
    }
  }

  lemma {:induction false} ExecSplits(env: Env, p: Progress, cap: Capturer, step: Step)
    requires !p.rejected && StepHasNoNull(step)
    ensures Exec(env, p, cap, step) == Progress(DirectBy(env, p.state, step), p.events + CapturedBy(cap, step), false)
    decreases step
  {
    match step
    case Capture(_, _, _) =>
    case Emit(_, _, _) =>
    case Adjust(_) =>
    case Reuse(inner) =>
      RunSplits(env, p, cap, inner);
  }

  /** `RunSplits` for a callback started with nothing captured. */
  lemma StartSplits(env: Env, st: State, cap: Capturer, steps: seq<Step>)
    ensures NoNullArgument(steps) ==>
      Run(env, Progress(st, [], false), cap, steps) == Progress(Direct(env, st, steps), Captured(cap, steps), false)
  {
    if NoNullArgument(steps) {
      RunSplits(env, Progress(st, [], false), cap, steps);
      assert [] + Captured(cap, steps) == Captured(cap, steps);
    }
  }

  /** Running `a` then `b` is running `a + b`. */
  lemma {:induction false} RunConcat(env: Env, p: Progress, cap: Capturer, a: seq<Step>, b: seq<Step>)
    ensures Run(env, p, cap, a + b) == Run(env, Run(env, p, cap, a), cap, b)
    decreases a
  {
    if |a| == 0 {
      assert a + b == b;
    } else {
      assert (a + b)[0] == a[0];
      assert (a + b)[1..] == a[1..] + b;
      RunConcat(env, Exec(env, p, cap, a[0]), cap, a[1..], b);
    }
  }

  /**
   * A nested `batch` on the capturing logger or writer hands the callback
   * the same capturer: its steps run inline.
   */
  lemma NestedBatchRunsInline(env: Env, p: Progress, cap: Capturer, inner: seq<Step>, rest: seq<Step>)
    requires !p.rejected
    ensures Run(env, p, cap, [Reuse(inner)] + rest) == Run(env, p, cap, inner + rest)
  {
    var steps := [Reuse(inner)] + rest;
    assert steps[0] == Reuse(inner) && steps[1..] == rest;
    RunConcat(env, p, cap, inner, rest);
  }

  /**
   * The drain at the end of a callback, or the thrown exception: then the
   * captured events are never written.
   */
  function Finish(env: Env, p: Progress): (o: Outcome<State>)
    ensures o.Rejected? <==> p.rejected
    ensures o.Rejected? ==> o.value == p.state
    ensures o.value.logger == p.state.logger
  {
    if p.rejected then Rejected(p.state)
    else Returned(State(p.state.logger, Impl.WriteEvents(env, p.state.logger, p.state.sink, p.events)))
  }

  /**
   * `SimpleLoggerImpl.batch(fn)`: every call on the capturing logger is
   * kept, at whatever level, and written only at the end, filtered against
   * the level the callback leaves behind and stamped with its capture time.
   */
  function Batch(env: Env, st: State, fn: Option<seq<Step>>): (o: Outcome<State>)
    ensures fn.None? ==> o == Rejected(st)
    ensures fn.Some? && NoNullArgument(fn.value) ==>
      var d := Direct(env, st, fn.value);
      o == Returned(State(d.logger, Impl.WriteEvents(env, d.logger, d.sink, Captured(Everything, fn.value))))
  {
    match fn
    case None => Rejected(st)
    case Some(steps) =>
      StartSplits(env, st, Everything, steps);
      Finish(env, Run(env, Progress(st, [], false), Everything, steps))
  }

  /** `SimpleLogWriter.batch(fn)` on the writer of `level`: every capture carries that level. */
  function WriterBatch(env: Env, st: State, level: Level, fn: Option<seq<Step>>): (o: Outcome<State>)
    ensures fn.None? ==> o == Rejected(st)
    ensures fn.Some? && NoNullArgument(fn.value) ==>
      var d := Direct(env, st, fn.value);
      o == Returned(State(d.logger, Impl.WriteEvents(env, d.logger, d.sink, Captured(OneLevel(level), fn.value))))
  {
    match fn
    case None => Rejected(st)
    case Some(steps) =>
      StartSplits(env, st, OneLevel(level), steps);
      Finish(env, Run(env, Progress(st, [], false), OneLevel(level), steps))
  }

  /** Every event the capturing writer of `level` keeps carries that level. */
  lemma {:induction false} WriterCapturesCarryItsLevel(level: Level, steps: seq<Step>)
    ensures forall e | e in Captured(OneLevel(level), steps) :: e.level == level
    decreases steps
  {
    if |steps| > 0 {
      WriterCapturesCarryItsLevelBy(level, steps[0]);
      WriterCapturesCarryItsLevel(level, steps[1..]);
    }
  }

  lemma {:induction false} WriterCapturesCarryItsLevelBy(level: Level, step: Step)
    ensures forall e | e in CapturedBy(OneLevel(level), step) :: e.level == level
    decreases step
  {
    if step.Reuse? {
      WriterCapturesCarryItsLevel(level, step.steps);
    }
  }

  /** A nested batch on the capturing logger writes exactly what its steps written inline would. */
  lemma NestedBatchIsInline(env: Env, st: State, inner: seq<Step>, rest: seq<Step>)
    ensures Batch(env, st, Some([Reuse(inner)] + rest)) == Batch(env, st, Some(inner + rest))
  {
    NestedBatchRunsInline(env, Progress(st, [], false), Everything, inner, rest);
  }

  /**
   * A call in the callback that throws a `NullPointerException`: a null
   * message or format on any writer, the null writer of NONE included, a
   * null level to `setLevel`, or a null callback to a nested `batch`.
   */
  predicate Throws(cap: Capturer, step: Step)
  {
    match step
    case Capture(_, call, _) => call.body.None?
    case Emit(_, wc, _) => PassesNull(wc)
    case Adjust(level) => level.None?
    case Reuse(_) => false
    case NullReuse => true
  }

  /** Once a call has thrown, the rest of the callback never runs. */
  lemma {:induction false} RunAfterThrow(env: Env, p: Progress, cap: Capturer, steps: seq<Step>)
    requires p.rejected
    ensures Run(env, p, cap, steps) == p
    decreases |steps|
  {
    if |steps| > 0 {
      RunAfterThrow(env, Exec(env, p, cap, steps[0]), cap, steps[1..]);
    }
  }

  /**
   * A callback whose first throwing call is `s`: the calls before it have
   * taken effect and captured their events, `s` itself changes nothing, and
   * the calls after it never run.
   */
  lemma StopsAtThrow(env: Env, st: State, cap: Capturer, before: seq<Step>, s: Step, after: seq<Step>)
    requires NoNullArgument(before) && Throws(cap, s)
    ensures Run(env, Progress(st, [], false), cap, before + [s] + after)
         == Progress(Direct(env, st, before), Captured(cap, before), true)
  {
    var start := Progress(st, [], false);
    var q := Progress(Direct(env, st, before), Captured(cap, before), false);
    assert before + [s] + after == before + ([s] + after);
    RunConcat(env, start, cap, before, [s] + after);
    StartSplits(env, st, cap, before);
    assert ([s] + after)[0] == s && ([s] + after)[1..] == after;
    assert Exec(env, q, cap, s) == q.(rejected := true);
    RunAfterThrow(env, q.(rejected := true), cap, after);
  }

  /**
   * `batch` whose callback makes a throwing call: the exception leaves
   * `batch`, the enclosing logger keeps the direct effects of the calls
   * before it, and nothing captured is written.
   */
  lemma BatchStopsAtThrow(env: Env, st: State, before: seq<Step>, s: Step, after: seq<Step>)
    requires NoNullArgument(before) && Throws(Everything, s)
    ensures Batch(env, st, Some(before + [s] + after)) == Rejected(Direct(env, st, before))
  {
    StopsAtThrow(env, st, Everything, before, s, after);
  }

  /** The same for a writer's `batch`. */
  lemma WriterBatchStopsAtThrow(env: Env, st: State, level: Level, before: seq<Step>, s: Step, after: seq<Step>)
    requires NoNullArgument(before) && Throws(OneLevel(level), s)
    ensures WriterBatch(env, st, level, Some(before + [s] + after)) == Rejected(Direct(env, st, before))
  {
    StopsAtThrow(env, st, OneLevel(level), before, s, after);
  }

  /** A null message to the null writer of NONE ends the batch before anything is drained. */
  lemma NullWriterRejectsNull(env: Env, st: State, now: Instant, rest: seq<Step>)
    ensures Batch(env, st, Some([Emit(NONE, Logs(Log(None)), now)] + rest)) == Rejected(st)
  {
    assert [] + [Emit(NONE, Logs(Log(None)), now)] + rest == [Emit(NONE, Logs(Log(None)), now)] + rest;
    BatchStopsAtThrow(env, st, [], Emit(NONE, Logs(Log(None)), now), rest);
  }
}
