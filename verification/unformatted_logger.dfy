/**
 * `UnformattedLogger`: the builder of the unformatted pipeline and the
 * provider that hands out one logger per name. Each setter rejects a null argument;
 * `getLogger` creates a logger the first time a name is asked for and
 * returns that same logger ever after.
 */
module UnformattedLogger {
  import opened Wrappers
  import opened Levels
  import opened Collaborators
  import opened Api
  import Impl = UnformattedLoggerImpl

  /** What a builder collects. */
  datatype Builder = Builder(locale: Locale, level: Level, autoFlush: bool)

  /** `new Builder()`: the process default locale, INFO and auto-flush on. */
  function NewBuilder(env: Env): (b: Builder)
    ensures b.locale == env.defaultLocale
    ensures b.level == INFO && b.autoFlush
  {
    Builder(env.defaultLocale, INFO, true)
  }

  /** `withLocale(locale)`. */
  function WithLocale(b: Builder, locale: Option<Locale>): (o: Outcome<Builder>)
    ensures o.Rejected? <==> locale.None?
    ensures o.Rejected? ==> o.value == b
    ensures o.Returned? ==> o.value.locale == locale.value
    ensures o.value.level == b.level && o.value.autoFlush == b.autoFlush
  {
    match locale
    case None => Rejected(b)
    case Some(l) => Returned(b.(locale := l))
  }

  /** `withLogLevel(level)`. */
  function WithLogLevel(b: Builder, level: Option<Level>): (o: Outcome<Builder>)
    ensures o.Rejected? <==> level.None?
    ensures o.Rejected? ==> o.value == b
    ensures o.Returned? ==> o.value.level == level.value
    ensures o.value.locale == b.locale && o.value.autoFlush == b.autoFlush
  {
    match level
    case None => Rejected(b)
    case Some(l) => Returned(b.(level := l))
  }

  /** `withoutAutoFlush()`. */
  function WithoutAutoFlush(b: Builder): (r: Builder)
    ensures !r.autoFlush
    ensures r.locale == b.locale && r.level == b.level
  {
    b.(autoFlush := false)
  }

  /** The setters touch disjoint fields, so their order does not matter. */
  lemma SettersCommute(b: Builder, locale: Locale, level: Level)
    ensures WithLogLevel(WithLocale(b, Some(locale)).value, Some(level))
         == WithLocale(WithLogLevel(b, Some(level)).value, Some(locale))
    ensures WithLogLevel(WithoutAutoFlush(b), Some(level)).value
         == WithoutAutoFlush(WithLogLevel(b, Some(level)).value)
  {
  }

  /** The provider `toPrintWriter` returns: the builder it was made from and the loggers made so far. */
  datatype Provider = Provider(builder: Builder, loggers: map<string, Impl.Logger>)

  /** `toPrintWriter(writer)`: a provider with no loggers yet. */
  function ToPrintWriter(b: Builder): (p: Provider)
    ensures p.builder == b && |p.loggers| == 0
  {
    Provider(b, map[])
  }

  /** `new UnformattedLoggerImpl(builder, writer)`: the builder's settings; the name is not used. */
  function NewLogger(env: Env, b: Builder, name: string): (g: Impl.Logger)
    ensures g.config.locale == b.locale && g.config.autoFlush == b.autoFlush
    ensures Impl.GetLevel(g) == b.level
  {
    Impl.Logger(Impl.Config(b.locale, b.autoFlush), b.level)
  }

  /** Loggers made for different names from one builder are indistinguishable. */
  lemma NameIsIgnored(env: Env, b: Builder, name: string, other: string)
    ensures NewLogger(env, b, name) == NewLogger(env, b, other)
  {
  }

  /**
   * `getLogger(name)`: the logger already made for `name`, or a new one,
   * which the provider keeps from then on.
   */
  function GetLogger(env: Env, p: Provider, name: string): (r: (Impl.Logger, Provider))
    ensures r.1.builder == p.builder
    ensures r.1.loggers.Keys == p.loggers.Keys + {name}
    ensures name in r.1.loggers && r.0 == r.1.loggers[name]
    ensures name in p.loggers ==> r.0 == p.loggers[name]
    ensures name !in p.loggers ==> r.0 == NewLogger(env, p.builder, name)
    ensures forall n | n in p.loggers :: r.1.loggers[n] == p.loggers[n]
  {
    if name in p.loggers then (p.loggers[name], p)
    else
      var g := NewLogger(env, p.builder, name);
      (g, p.(loggers := p.loggers[name := g]))
  }

  /** Asking again for a name returns the same logger and leaves the provider as it was. */
  lemma GetLoggerIsIdempotent(env: Env, p: Provider, name: string)
    ensures var (g, p') := GetLogger(env, p, name);
      GetLogger(env, p', name) == (g, p')
  {
  }

  /**
   * `getLogger(name)` as called: a null name throws from the registry's
   * `computeIfAbsent` and leaves the provider as it was; any other name is
   * answered as `GetLogger` answers it.
   */
  function RequestLogger(env: Env, p: Provider, name: Option<string>): (o: Outcome<(Option<Impl.Logger>, Provider)>)
    ensures o.Rejected? <==> name.None?
    ensures o.Rejected? ==> o.value == (None, p)
    ensures o.Returned? ==> o.value.1.builder == p.builder
    ensures o.Returned? ==> o.value.1.loggers.Keys == p.loggers.Keys + {name.value}
    ensures o.Returned? ==> o.value.0 == Some(o.value.1.loggers[name.value])
    ensures o.Returned? && name.value in p.loggers ==> o.value.1 == p
    ensures o.Returned? ==> forall n | n in p.loggers :: o.value.1.loggers[n] == p.loggers[n]
  {
    match name
    case None => Rejected((None, p))
    case Some(n) =>
      var (g, p') := GetLogger(env, p, n);
      Returned((Some(g), p'))
  }

  /**
   * `setLevel(level)` called on the logger the provider keeps for `name`:
   * the provider holds that one logger, so the change is what every later
   * `getLogger(name)` returns. A null level throws and changes nothing.
   */
  function SetLevelOf(p: Provider, name: string, level: Option<Level>): (o: Outcome<(Level, Provider)>)
    requires name in p.loggers
    ensures o.Rejected? <==> level.None?
    ensures o.value.0 == Impl.GetLevel(p.loggers[name])
    ensures o.Rejected? ==> o.value.1 == p
    ensures o.value.1.builder == p.builder && o.value.1.loggers.Keys == p.loggers.Keys
    ensures forall n | n in p.loggers && n != name :: o.value.1.loggers[n] == p.loggers[n]
    ensures o.Returned? ==> o.value.1.loggers[name].config == p.loggers[name].config
    ensures o.Returned? ==> Impl.GetLevel(o.value.1.loggers[name]) == level.value
  {
    match Impl.SetLevel(p.loggers[name], level)
    case Rejected(_) => Rejected((Impl.GetLevel(p.loggers[name]), p))
    case Returned((previous, g)) => Returned((previous, p.(loggers := p.loggers[name := g])))
  }

  /**
   * A level set through a logger handed out earlier is seen by the next
   * `getLogger` for the same name, and the other loggers are untouched.
   */
  lemma AdjustmentIsShared(env: Env, p: Provider, name: string, other: string, level: Level)
    requires other != name
    ensures var (g, p1) := GetLogger(env, p, name);
      var p2 := SetLevelOf(p1, name, Some(level)).value.1;
      var (g2, p3) := GetLogger(env, p2, name);
      g2 == g.(level := level) && Impl.GetLevel(g2) == level && p3 == p2
      && GetLogger(env, p2, other).0 == GetLogger(env, p1, other).0
  {
  }

  /** The loggers handed out for a sequence of names, and the provider afterwards. */
  function GetLoggers(env: Env, p: Provider, names: seq<string>): (r: (seq<Impl.Logger>, Provider))
    ensures |r.0| == |names|
    decreases |names|
  {
    if |names| == 0 then ([], p)
    else
      var (g, p') := GetLogger(env, p, names[0]);
      var (gs, p'') := GetLoggers(env, p', names[1..]);
      ([g] + gs, p'')
  }

  /**
   * Over any sequence of requests, the provider ends up with one logger per
   * distinct name, each made once from the builder, and every request for
   * a name got that name's logger.
   */
  lemma GetLoggersKeepsOnePerName(env: Env, p: Provider, names: seq<string>)
    ensures var (gs, p') := GetLoggers(env, p, names);
      && p'.builder == p.builder
      && p'.loggers.Keys == p.loggers.Keys + (set n | n in names)
      && (forall n | n in p.loggers :: p'.loggers[n] == p.loggers[n])
      && (forall n | n in p'.loggers && n !in p.loggers :: p'.loggers[n] == NewLogger(env, p.builder, n))
      && (forall i | 0 <= i < |names| :: gs[i] == p'.loggers[names[i]])
  {
    GetLoggersRegistry(env, p, names);
    GetLoggersAnswers(env, p, names);
  }

  /** The provider after the requests: each name asked for is registered, once, and nothing registered changes. */
  lemma {:induction false} GetLoggersRegistry(env: Env, p: Provider, names: seq<string>)
    ensures var p' := GetLoggers(env, p, names).1;
      && p'.builder == p.builder
      && p'.loggers.Keys == p.loggers.Keys + (set n | n in names)
      && (forall n | n in p.loggers :: p'.loggers[n] == p.loggers[n])
      && (forall n | n in p'.loggers && n !in p.loggers :: p'.loggers[n] == NewLogger(env, p.builder, n))
    decreases |names|
  {
    if |names| > 0 {
      var q := GetLogger(env, p, names[0]).1;
      GetLoggersRegistry(env, q, names[1..]);
      assert GetLoggers(env, p, names).1 == GetLoggers(env, q, names[1..]).1;
      assert (set n | n in names) == {names[0]} + (set n | n in names[1..]) by {
        assert names == [names[0]] + names[1..];
      }
    }
  }

  /** Every request got the logger the provider ends up holding for its name. */
  lemma {:induction false} GetLoggersAnswers(env: Env, p: Provider, names: seq<string>)
    ensures var (gs, p') := GetLoggers(env, p, names);
      forall i | 0 <= i < |names| :: names[i] in p'.loggers && gs[i] == p'.loggers[names[i]]
    decreases |names|
  {
    if |names| > 0 {
      GetLoggersRegistry(env, p, names);
      var (g, q) := GetLogger(env, p, names[0]);
      GetLoggersRegistry(env, q, names[1..]);
      GetLoggersAnswers(env, q, names[1..]);
      var (gs, p') := GetLoggers(env, p, names);
      var gs' := GetLoggers(env, q, names[1..]).0;
      assert gs == [g] + gs' && p' == GetLoggers(env, q, names[1..]).1;
      forall i | 0 <= i < |names|
        ensures names[i] in p'.loggers && gs[i] == p'.loggers[names[i]]
      {
        if i > 0 {
          assert names[i] == names[1..][i - 1] && gs[i] == gs'[i - 1];
        }
      }
    }
  }
}
