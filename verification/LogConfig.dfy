/** The "logs" configuration variable and the listener that carries its changes over to the loggers. */
module LogConfig {
  import opened LogPattern

  datatype AppenderKind = FileAppender(file: string) | StdoutAppender

  datatype AppenderDefine = AppenderDefine(kind: AppenderKind, level: nat, formatter: string)

  /** A LogDefine without its name, which is the key it is stored under. */
  datatype LogDefine = LogDefine(level: nat, formatter: string, appenders: seq<AppenderDefine>)

  /** `own` says that the appender was given a format of its own. */
  datatype Appender = Appender(kind: AppenderKind, level: nat, own: bool, formatter: string)

  const DEBUG := 1
  const DEFAULT_PATTERN := "%d{%Y-%m-%d %H:%M:%S}%T%t%T%N%T%F%T[%p]%T[%c]%T%f:%l%T%m%n"

  ghost predicate GoodPattern(p: string) {
    forall t :: t in Parse(p) ==> !IsError(t)
  }

  /** What a configured appender amounts to, whoever builds it: what it writes to, its level, and its
      own format when it has a valid one. */
  datatype Sink = Sink(kind: AppenderKind, level: nat, format: string)

  function SinkOf(a: Appender): Sink {
    Sink(a.kind, a.level, if a.own then a.formatter else "")
  }

  function SinksOf(s: seq<Appender>): (r: seq<Sink>)
    ensures |r| == |s|
  {
    seq(|s|, i requires 0 <= i < |s| => SinkOf(s[i]))
  }

  ghost function Defined(a: AppenderDefine): Sink {
    Sink(a.kind, a.level, if a.formatter != "" && GoodPattern(a.formatter) then a.formatter else "")
  }

  /** The appenders built from scratch; a daemon has no standard output. */
  ghost function Built(s: seq<AppenderDefine>, daemon: bool): seq<Sink> {
    if s == [] then []
    else Built(s[..|s| - 1], daemon)
         + (if s[|s| - 1].kind.StdoutAppender? && daemon then [] else [Defined(s[|s| - 1])])
  }

  lemma GoodPatternIs(p: string)
    ensures GoodPattern(p) <==> !exists t :: t in Parse(p) && IsError(t)
  {}

  /** A well-formed pattern is good exactly when every name in it is one of the twelve. */
  lemma GoodPatternMeans(ps: seq<Piece>)
    requires WellFormed(ps)
    ensures GoodPattern(Render(ps)) <==>
              forall k :: 0 <= k < |ps| && ps[k].Placeholder? ==>
                ps[k].name in {"m", "p", "r", "c", "t", "n", "d", "f", "l", "T", "F", "N"}
  {
    hide WellFormed, GoodPattern;
    GoodPatternIs(Render(ps));
    ItemsMean(ps);
  }

  /** The sinks built from definitions, place by place: `picked` are the places that are built, which are
      all, but no standard output for a daemon. */
  lemma BuiltMeans(s: seq<AppenderDefine>, daemon: bool) returns (picked: seq<nat>)
    ensures |picked| == |Built(s, daemon)| && forall j :: 0 <= j < |picked| ==> picked[j] < |s|
    ensures forall j, k :: 0 <= j < k < |picked| ==> picked[j] < picked[k]
    ensures forall i :: 0 <= i < |s| ==> (i in picked <==> !(daemon && s[i].kind == StdoutAppender))
    ensures forall j :: 0 <= j < |picked| ==>
              var d := s[picked[j]];
              Built(s, daemon)[j] == Sink(d.kind, d.level, if d.formatter != "" && GoodPattern(d.formatter) then d.formatter else "")
  {
    hide Built, GoodPattern;
    picked := BuiltPicks(s, daemon);
  }

  lemma {:induction false} BuiltPicks(s: seq<AppenderDefine>, daemon: bool) returns (picked: seq<nat>)
    ensures Picks(picked, s, daemon) && |picked| == |Built(s, daemon)|
    ensures forall j :: 0 <= j < |picked| ==> picked[j] < |s| && Built(s, daemon)[j] == Defined(s[picked[j]])
    decreases |s|
  {
    hide Defined, Picks, Built;
    BuiltStep(s, daemon);
    if s == [] {
      picked := [];
      NothingPicked(s, daemon, "");
      assert s[..0] == s;
    } else {
      var last := |s| - 1;
      var front := s[..last];
      var before := BuiltPicks(front, daemon);
      PicksMore(before, s, last, daemon);
      assert s[..last + 1] == s;
      picked := if daemon && s[last].kind == StdoutAppender then before else before + [last];
      assert forall j :: 0 <= j < |before| ==> front[before[j]] == s[before[j]];
    }
  }

  lemma BuiltStep(s: seq<AppenderDefine>, daemon: bool)
    ensures s == [] ==> Built(s, daemon) == []
    ensures s != [] ==>
              Built(s, daemon) == Built(s[..|s| - 1], daemon)
                + (if s[|s| - 1].kind == StdoutAppender && daemon then [] else [Defined(s[|s| - 1])])
  {}

  /** The places of the definitions that are built, in order. */
  ghost predicate Picks(picked: seq<nat>, s: seq<AppenderDefine>, daemon: bool) {
    && (forall j :: 0 <= j < |picked| ==> picked[j] < |s|)
    && (forall j, k :: 0 <= j < k < |picked| ==> picked[j] < picked[k])
    && (forall i :: 0 <= i < |s| ==> (i in picked <==> !(daemon && s[i].kind == StdoutAppender)))
  }

  ghost predicate Follows(a: Appender, d: AppenderDefine, formatter: string) {
    && a.kind == d.kind && a.level == d.level
    && (a.own <==> d.formatter != "" && GoodPattern(d.formatter))
    && a.formatter == if a.own then d.formatter else formatter
  }

  ghost predicate AllFollow(s: seq<Appender>, defs: seq<AppenderDefine>, picked: seq<nat>, formatter: string) {
    |picked| == |s| && forall j :: 0 <= j < |s| ==> picked[j] < |defs| && Follows(s[j], defs[picked[j]], formatter)
  }

  lemma PicksMore(picked: seq<nat>, s: seq<AppenderDefine>, i: nat, daemon: bool)
    requires i < |s| && Picks(picked, s[..i], daemon)
    ensures Picks(if daemon && s[i].kind == StdoutAppender then picked else picked + [i], s[..i + 1], daemon)
  {
    var more := if daemon && s[i].kind == StdoutAppender then picked else picked + [i];
    forall k | 0 <= k < i + 1 ensures k in more <==> !(daemon && s[k].kind == StdoutAppender) {
      assert k < i ==> s[..i][k] == s[k];
    }
  }

  lemma AllFollowMore(s: seq<Appender>, s': seq<Appender>, defs: seq<AppenderDefine>, i: nat, picked: seq<nat>, formatter: string)
    requires i < |defs| && AllFollow(s, defs[..i], picked, formatter)
    ensures AllFollow(s, defs[..i + 1], picked, formatter)
    ensures |s'| == |s| + 1 && s'[..|s|] == s && Follows(s'[|s|], defs[i], formatter) ==>
              AllFollow(s', defs[..i + 1], picked + [i], formatter)
  {
    hide Follows;
    assert forall j :: 0 <= j < |s| && |s'| == |s| + 1 ==> s'[..|s|][j] == s'[j];
  }

  lemma NothingPicked(defs: seq<AppenderDefine>, daemon: bool, formatter: string)
    ensures Picks([], defs[..0], daemon) && AllFollow([], defs[..0], [], formatter)
  {}

  lemma SinksOfNothing()
    ensures SinksOf([]) == []
  {}

  class Logger {
    var level: nat
    var formatter: string
    var appenders: seq<Appender>

    constructor ()
      ensures level == DEBUG && formatter == DEFAULT_PATTERN && appenders == []
    {
      level, formatter, appenders := DEBUG, DEFAULT_PATTERN, [];
    }

    /** Appenders without a format of their own have the logger's. */
    ghost predicate Inherits()
      reads this
    {
      forall a :: a in appenders && !a.own ==> a.formatter == formatter
    }

    /** An invalid pattern changes nothing; a valid one also reaches the appenders that inherit. */
    method SetFormatter(pattern: string)
      requires Inherits()
      modifies this
      ensures Inherits() && level == old(level)
      ensures formatter == if GoodPattern(pattern) then pattern else old(formatter)
      ensures SinksOf(appenders) == old(SinksOf(appenders))
    {
      var f := new LogFormatter(pattern);
      if f.error {
        return;
      }
      formatter := pattern;
      var i := 0;
      while i < |appenders|
        invariant 0 <= i <= |appenders| == |old(appenders)| && formatter == pattern && level == old(level)
        invariant forall j :: 0 <= j < i ==>
                    appenders[j] == if old(appenders)[j].own then old(appenders)[j] else old(appenders)[j].(formatter := pattern)
        invariant forall j :: i <= j < |appenders| ==> appenders[j] == old(appenders)[j]
      {
        if !appenders[i].own {
          appenders := appenders[i := appenders[i].(formatter := pattern)];
        }
        i := i + 1;
      }
    }

    method AddAppender(a: Appender)
      requires Inherits()
      modifies this`appenders
      ensures Inherits() && SinksOf(appenders) == old(SinksOf(appenders)) + [SinkOf(a)]
      ensures appenders == old(appenders) + [if a.own then a else a.(formatter := formatter)]
    {
      appenders := appenders + [if a.own then a else a.(formatter := formatter)];
    }

    /** One appender, with a format of its own if the definition has a valid one. */
    method AddDefined(d: AppenderDefine)
      requires Inherits()
      modifies this`appenders
      ensures Inherits() && SinksOf(appenders) == old(SinksOf(appenders)) + [Defined(d)]
      ensures |appenders| == |old(appenders)| + 1 && appenders[..|old(appenders)|] == old(appenders)
      ensures Follows(appenders[|old(appenders)|], d, formatter)
    {
      hide GoodPattern;
      var ap := Appender(d.kind, d.level, false, "");
      if d.formatter != "" {
        var fmt := new LogFormatter(d.formatter);
        GoodPatternIs(d.formatter);
        if !fmt.error {
          ap := ap.(own := true, formatter := d.formatter);
        }
      }
      AddAppender(ap);
    }

    method ClearAppenders()
      modifies this`appenders
      ensures appenders == [] && Inherits()
    {
      appenders := [];
    }

    ghost function View(): LoggerView
      reads this
    {
      LoggerView(level, SinksOf(appenders), formatter)
    }

    /** One definition carried over: level, format, and a new list of appenders. */
    method Configure(def: LogDefine, daemon: bool) returns (ghost picked: seq<nat>)
      requires Inherits()
      modifies this
      ensures Inherits() && View() == Reconfigured(old(View()), def, daemon)
      ensures level == def.level
      ensures formatter == if def.formatter != "" && GoodPattern(def.formatter) then def.formatter else old(formatter)
      // `picked` are the places of the definitions that are built: all, but no standard output for a daemon
      ensures |picked| == |appenders| && forall j :: 0 <= j < |picked| ==> picked[j] < |def.appenders|
      ensures forall j, k :: 0 <= j < k < |picked| ==> picked[j] < picked[k]
      ensures forall i :: 0 <= i < |def.appenders| ==> (i in picked <==> !(daemon && def.appenders[i].kind == StdoutAppender))
      ensures forall j :: 0 <= j < |appenders| ==>
                var d, a := def.appenders[picked[j]], appenders[j];
                && a.kind == d.kind && a.level == d.level
                && (a.own <==> d.formatter != "" && GoodPattern(d.formatter))
                && a.formatter == if a.own then d.formatter else formatter
    {
      hide GoodPattern, Built;
      level := def.level;
      if def.formatter != "" {
        SetFormatter(def.formatter);
      }
      ClearAppenders();
      picked := BuildAppenders(def.appenders, daemon);
    }

    /** The loop over the appender definitions. */
    method BuildAppenders(defs: seq<AppenderDefine>, daemon: bool) returns (ghost picked: seq<nat>)
      requires Inherits() && appenders == []
      modifies this`appenders
      ensures Inherits() && SinksOf(appenders) == Built(defs, daemon)
      ensures Picks(picked, defs, daemon) && AllFollow(appenders, defs, picked, formatter)
    {
      hide GoodPattern, Inherits, SinksOf, Defined, Picks, Follows, AllFollow;
      SinksOfNothing();
      NothingPicked(defs, daemon, formatter);
      picked := [];
      var i := 0;
      while i < |defs|
        invariant 0 <= i <= |defs| && Inherits() && SinksOf(appenders) == Built(defs[..i], daemon)
        invariant Picks(picked, defs[..i], daemon) && AllFollow(appenders, defs[..i], picked, formatter)
      {
        var a := defs[i];
        assert defs[..i + 1][..i] == defs[..i];
        PicksMore(picked, defs, i, daemon);
        ghost var was := appenders;
        i := i + 1;
        if a.kind.StdoutAppender? && daemon {
          AllFollowMore(was, appenders, defs, i - 1, picked, formatter);
          continue;
        }
        AddDefined(a);
        AllFollowMore(was, appenders, defs, i - 1, picked, formatter);
        picked := picked + [i - 1];
      }
      assert defs[..i] == defs;
    }

    method Silence()
      requires Inherits()
      modifies this
      ensures Inherits() && View() == Silenced(old(View()))
    {
      level := 0;
      ClearAppenders();
    }
  }

  // ----- the loggers as values -----

  datatype LoggerView = LoggerView(level: nat, sinks: seq<Sink>, formatter: string)

  type Loggers = map<string, LoggerView>

  type Defines = map<string, LogDefine>

  const NEW_LOGGER := LoggerView(DEBUG, [], DEFAULT_PATTERN)

  function Find(ls: Loggers, name: string): LoggerView {
    if name in ls then ls[name] else NEW_LOGGER
  }

  ghost function Reconfigured(l: LoggerView, def: LogDefine, daemon: bool): LoggerView {
    LoggerView(def.level, Built(def.appenders, daemon),
               if def.formatter != "" && GoodPattern(def.formatter) then def.formatter else l.formatter)
  }

  function Silenced(l: LoggerView): LoggerView {
    l.(level := 0, sinks := [])
  }

  /** Formats aside, the logger is what a new one would be after this definition. */
  ghost predicate Configured(l: LoggerView, def: LogDefine, daemon: bool) {
    l.level == def.level && l.sinks == Built(def.appenders, daemon)
  }

  /** Every configured logger is as if built from scratch. */
  ghost predicate Matches(ls: Loggers, v: Defines, daemon: bool) {
    forall n :: n in v ==> n in ls && Configured(ls[n], v[n], daemon)
  }

  ghost predicate SilentAre(ls: Loggers, names: set<string>) {
    forall n :: n in names ==> n in ls && ls[n].level == 0 && ls[n].sinks == []
  }

  ghost predicate OnlyChanged(a: Loggers, b: Loggers, names: set<string>) {
    && (forall n :: n in b && n !in names ==> n in a)
    && (forall n :: n in a ==> n in b && (n !in names ==> b[n] == a[n]))
  }

  class LoggerManager {
    var loggers: map<string, Logger>

    constructor ()
      ensures Valid() && View() == map[]
    {
      loggers := map[];
    }

    ghost predicate Valid()
      reads this, loggers.Values
    {
      && (forall a, b :: a in loggers && b in loggers && a != b ==> loggers[a] != loggers[b])
      && (forall a :: a in loggers ==> loggers[a].Inherits())
    }

    ghost function View(): Loggers
      reads this, loggers.Values
    {
      map n | n in loggers :: loggers[n].View()
    }

    /** Finds the logger, or makes one with the default level and pattern. */
    method GetLogger(name: string) returns (l: Logger)
      requires Valid()
      modifies this
      ensures Valid() && name in loggers && l == loggers[name] && l.View() == Find(old(View()), name)
      ensures if name in old(loggers) then loggers == old(loggers) else fresh(l) && loggers == old(loggers)[name := l]
      ensures View() == old(View())[name := l.View()]
    {
      if name in loggers {
        return loggers[name];
      }
      l := new Logger();
      loggers := loggers[name := l];
    }

    method ConfigureOne(name: string, def: LogDefine, daemon: bool)
      requires Valid()
      modifies this, loggers.Values
      ensures Valid() && fresh(loggers.Values - old(loggers.Values))
      ensures View() == old(View())[name := Reconfigured(Find(old(View()), name), def, daemon)]
    {
      hide Logger.View, Reconfigured, Logger.Inherits;
      var l := GetLogger(name);
      ghost var _ := l.Configure(def, daemon);
    }

    method SilenceOne(name: string)
      requires Valid()
      modifies this, loggers.Values
      ensures Valid() && fresh(loggers.Values - old(loggers.Values))
      ensures View() == old(View())[name := Silenced(Find(old(View()), name))]
    {
      hide Logger.View, Silenced, Logger.Inherits;
      var l := GetLogger(name);
      l.Silence();
    }
  }

  function Kept(o: Defines, v: Defines): set<string> {
    set n | n in v && n in o && o[n] == v[n]
  }

  /** The "logs" variable together with its one listener. */
  class LogsVariable {
    const manager: LoggerManager
    const daemon: bool
    var val: Defines
    ghost var ever: set<string>   // every name that was configured at some time

    constructor (manager: LoggerManager, daemon: bool)
      requires manager.Valid()
      ensures Valid() && this.manager == manager && this.daemon == daemon && val == map[] && ever == {}
    {
      this.manager, this.daemon, val, ever := manager, daemon, map[], {};
    }

    /** The loggers are those built from scratch from the current value, and every logger that is no
        longer configured is silent. */
    ghost predicate Valid()
      reads this, manager, manager.loggers.Values
    {
      && manager.Valid() && val.Keys <= ever
      && Matches(manager.View(), val, daemon)
      && SilentAre(manager.View(), ever - val.Keys)
    }

    /** ConfigVar::setValue: an equal value is ignored, otherwise the listener sees old and new. */
    method SetValue(v: Defines)
      requires Valid()
      modifies this, manager, manager.loggers.Values
      ensures Valid() && val == v && ever == old(ever) + v.Keys
      ensures OnlyChanged(old(manager.View()), manager.View(), old(val.Keys) + v.Keys - Kept(old(val), v))
    {
      hide LoggerManager.Valid, LoggerManager.View, Matches, SilentAre, OnlyChanged;
      ghost var l0 := manager.View();
      if v != val {
        ConfigureNew(val, v);
        ghost var l1 := manager.View();
        SilenceRemoved(val, v);
        Together(l0, l1, manager.View(), val, v, ever, daemon);
        val := v;
      } else {
        assert ever + v.Keys - v.Keys == ever - val.Keys;
        Untouched(l0, val.Keys + v.Keys - Kept(val, v));
      }
      ever := ever + v.Keys;
    }

    /** The listener's first loop. */
    method ConfigureNew(o: Defines, v: Defines)
      requires manager.Valid() && Matches(manager.View(), o, daemon)
      modifies manager, manager.loggers.Values
      ensures manager.Valid() && fresh(manager.loggers.Values - old(manager.loggers.Values))
      ensures Matches(manager.View(), v, daemon)
      ensures OnlyChanged(old(manager.View()), manager.View(), v.Keys - Kept(o, v))
    {
      hide LoggerManager.Valid, LoggerManager.View, Built, Configured;
      var rest := v.Keys;
      ghost var l0 := manager.View();
      while rest != {}
        invariant rest <= v.Keys && manager.Valid() && fresh(manager.loggers.Values - old(manager.loggers.Values))
        invariant OnlyChanged(l0, manager.View(), v.Keys - Kept(o, v))
        invariant forall n :: n in v.Keys - rest ==> n in manager.View() && Configured(manager.View()[n], v[n], daemon)
        decreases rest
      {
        var n :| n in rest;
        rest := rest - {n};
        if n in o && o[n] == v[n] {
          continue;
        }
        IsConfigured(Find(manager.View(), n), v[n], daemon);
        manager.ConfigureOne(n, v[n], daemon);
      }
    }

    /** The listener's second loop. */
    method SilenceRemoved(o: Defines, v: Defines)
      requires manager.Valid()
      modifies manager, manager.loggers.Values
      ensures manager.Valid() && fresh(manager.loggers.Values - old(manager.loggers.Values))
      ensures SilentAre(manager.View(), o.Keys - v.Keys)
      ensures OnlyChanged(old(manager.View()), manager.View(), o.Keys - v.Keys)
    {
      hide LoggerManager.Valid, LoggerManager.View;
      var gone := o.Keys - v.Keys;
      var rest := gone;
      while rest != {}
        invariant rest <= gone && manager.Valid() && fresh(manager.loggers.Values - old(manager.loggers.Values))
        invariant SilentAre(manager.View(), gone - rest) && OnlyChanged(old(manager.View()), manager.View(), gone)
        decreases rest
      {
        var n :| n in rest;
        rest := rest - {n};
        manager.SilenceOne(n);
      }
    }
  }

  lemma IsConfigured(l: LoggerView, def: LogDefine, daemon: bool)
    ensures Configured(Reconfigured(l, def, daemon), def, daemon)
  {}

  lemma Untouched(l: Loggers, names: set<string>)
    ensures OnlyChanged(l, l, names)
  {}

  /** The two loops together do what the variable promises. */
  lemma Together(l0: Loggers, l1: Loggers, l2: Loggers, o: Defines, v: Defines, ever: set<string>, daemon: bool)
    requires OnlyChanged(l0, l1, v.Keys - Kept(o, v)) && OnlyChanged(l1, l2, o.Keys - v.Keys)
    requires Matches(l1, v, daemon) && SilentAre(l2, o.Keys - v.Keys)
    requires o.Keys <= ever && SilentAre(l0, ever - o.Keys)
    ensures Matches(l2, v, daemon) && SilentAre(l2, ever + v.Keys - v.Keys)
    ensures OnlyChanged(l0, l2, o.Keys + v.Keys - Kept(o, v))
  {}

  /** Logger formats are not rebuilt: the result depends on what came before exactly when the
      definition has no valid format of its own. */
  lemma FormatRebuilds(def: LogDefine, daemon: bool)
    ensures (forall l :: Reconfigured(l, def, daemon).formatter == Reconfigured(NEW_LOGGER, def, daemon).formatter)
            <==> def.formatter != "" && GoodPattern(def.formatter)
  {
    hide GoodPattern, Built;
    if def.formatter == "" || !GoodPattern(def.formatter) {
      var other := NEW_LOGGER.(formatter := "");
      assert Reconfigured(other, def, daemon).formatter == "" && |DEFAULT_PATTERN| > 0;
    }
  }
}
