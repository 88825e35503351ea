/** The `Logger` interface with its two implementations, the silent one
    (`noopLogger`) and the console one (`stdoutLogger`). Output streams are
    modelled as the lines written to them so far; each method is a pure
    function from the logger, its arguments and the current streams to the
    new streams. */
module Logger {
  import opened Wrappers
  import opened Text
  import opened Levels
  import opened Values
  import opened Lines

  /** The three streams a console logger writes to: `std` is the package's
      standard `log` output, which template calls use; `info` is
      `infoLog` (standard output); `err` is `errLog` (standard error). */
  datatype Sinks = Sinks(std: seq<string>, info: seq<string>, err: seq<string>)

  /** A logger: the silent one, or a console logger with its state. */
  datatype Logger = Noop | Console(cfg: Config)

  /** The state a `Fatalf` call leaves behind: the streams after its line,
      and the exit status the process terminates with. */
  datatype Halt = Halt(sinks: Sinks, exitCode: int)

  /** The result of `Write`: the streams after it, and its `(n, err)`
      return values, with `None` for a nil error. */
  datatype WriteResult = WriteResult(sinks: Sinks, n: int, err: Option<string>)

  // ---------------------------------------------------------------------
  // Construction and gating
  // ---------------------------------------------------------------------

  /** `Stdout(module, minLevel, color)`: a console logger whose threshold
      is the case-insensitive reading of `minLevel`. */
  function Stdout(mod: string, minLevel: string, color: bool): (r: Logger)
    ensures r.Console? && r.cfg.mod == mod && r.cfg.color == color
    ensures forall l: Level :: ToUpper(minLevel) == l.Name() ==>
      forall l': Level :: Passes(r.cfg, l') <==> l'.Rank() >= l.Rank()
    ensures !IsLevelName(ToUpper(minLevel)) ==> forall l: Level :: Passes(r.cfg, l)
  {
    Console(Config(mod, color, Threshold(minLevel)))
  }

  /** Two spellings of the same level name, differing only in case, build
      the same logger. */
  lemma StdoutCaseInsensitive(mod: string, minLevel: string, color: bool)
    ensures Stdout(mod, ToUpper(minLevel), color) == Stdout(mod, minLevel, color)
  {
    ThresholdCaseInsensitive(minLevel);
  }

  /** The gate of every leveled call: it goes ahead unless the level's
      ordinal is below the logger's minimum. */
  predicate Passes(cfg: Config, level: Level)
    ensures Passes(cfg, level) <==> level.Rank() >= cfg.min
  {
    !(LevelToInt(level.Name()) < cfg.min)
  }

  // ---------------------------------------------------------------------
  // The two formatters of the console logger
  // ---------------------------------------------------------------------

  /** `outputf`: a template call's line goes to the standard `log` output
      only, and only when the level passes the gate. */
  function Outputf(cfg: Config, level: Level, msg: string, args: seq<Value>,
                   sprintf: (string, seq<Value>) -> string, s: Sinks): (r: Sinks)
    ensures r.info == s.info && r.err == s.err
    ensures r == s <==> !Passes(cfg, level)
    ensures Passes(cfg, level) ==> r.std == s.std + [TemplateLine(cfg, level, Message(msg, args, sprintf))]
  {
    if LevelToInt(level.Name()) < cfg.min then s
    else s.(std := s.std + [TemplateLine(cfg, level, Message(msg, args, sprintf))])
  }

  /** `output`: a concatenation call's line goes to `infoLog`, and an
      ERROR line goes to `errLog` as well, identical; nothing is written
      when the level fails the gate. */
  function Output(cfg: Config, level: Level, values: seq<Value>, s: Sinks): (r: Sinks)
    ensures r.std == s.std
    ensures r == s <==> !Passes(cfg, level)
    ensures Passes(cfg, level) ==> r.info == s.info + [ConcatLine(cfg, level, JoinValues(values))]
    ensures level != Level.Error ==> r.err == s.err
    ensures level == Level.Error && Passes(cfg, level) ==> r.err == s.err + [r.info[|s.info|]]
  {
    if LevelToInt(level.Name()) < cfg.min then s
    else
      var data := ConcatLine(cfg, level, JoinValues(values));
      s.(info := s.info + [data],
         err := if level.Name() == "ERROR" then s.err + [data] else s.err)
  }

  // ---------------------------------------------------------------------
  // The Logger interface
  // ---------------------------------------------------------------------

  /** `Errorf`: an ERROR template call. Unlike `Error`, it never reaches
      `errLog`. */
  function Errorf(lg: Logger, msg: string, args: seq<Value>,
                  sprintf: (string, seq<Value>) -> string, s: Sinks): (r: Sinks)
    ensures r.info == s.info && r.err == s.err
    ensures lg.Noop? ==> r == s
    ensures lg.Console? ==> (r == s <==> lg.cfg.min > Level.Error.Rank())
    ensures lg.Console? && lg.cfg.min <= Level.Error.Rank() ==>
      r.std == s.std + [TemplateLine(lg.cfg, Level.Error, Message(msg, args, sprintf))]
  {
    match lg
    case Noop => s
    case Console(cfg) => Outputf(cfg, Level.Error, msg, args, sprintf, s)
  }

  /** `Warnf`: a WARN template call. */
  function Warnf(lg: Logger, msg: string, args: seq<Value>,
                 sprintf: (string, seq<Value>) -> string, s: Sinks): (r: Sinks)
    ensures r.info == s.info && r.err == s.err
    ensures lg.Noop? ==> r == s
    ensures lg.Console? ==> (r == s <==> lg.cfg.min > Level.Warn.Rank())
    ensures lg.Console? && lg.cfg.min <= Level.Warn.Rank() ==>
      r.std == s.std + [TemplateLine(lg.cfg, Level.Warn, Message(msg, args, sprintf))]
  {
    match lg
    case Noop => s
    case Console(cfg) => Outputf(cfg, Level.Warn, msg, args, sprintf, s)
  }

  /** `Infof`: an INFO template call. */
  function Infof(lg: Logger, msg: string, args: seq<Value>,
                 sprintf: (string, seq<Value>) -> string, s: Sinks): (r: Sinks)
    ensures r.info == s.info && r.err == s.err
    ensures lg.Noop? ==> r == s
    ensures lg.Console? ==> (r == s <==> lg.cfg.min > Level.Info.Rank())
    ensures lg.Console? && lg.cfg.min <= Level.Info.Rank() ==>
      r.std == s.std + [TemplateLine(lg.cfg, Level.Info, Message(msg, args, sprintf))]
  {
    match lg
    case Noop => s
    case Console(cfg) => Outputf(cfg, Level.Info, msg, args, sprintf, s)
  }

  /** `Debugf`: a DEBUG template call. */
  function Debugf(lg: Logger, msg: string, args: seq<Value>,
                  sprintf: (string, seq<Value>) -> string, s: Sinks): (r: Sinks)
    ensures r.info == s.info && r.err == s.err
    ensures lg.Noop? ==> r == s
    ensures lg.Console? ==> (r == s <==> lg.cfg.min > Level.Debug.Rank())
    ensures lg.Console? && lg.cfg.min <= Level.Debug.Rank() ==>
      r.std == s.std + [TemplateLine(lg.cfg, Level.Debug, Message(msg, args, sprintf))]
  {
    match lg
    case Noop => s
    case Console(cfg) => Outputf(cfg, Level.Debug, msg, args, sprintf, s)
  }

  /** `Fatalf`: writes what `Errorf` writes (nothing, for the silent
      logger or below the gate) and then terminates with status 1 whatever
      the gate said. */
  function Fatalf(lg: Logger, msg: string, args: seq<Value>,
                  sprintf: (string, seq<Value>) -> string, s: Sinks): (r: Halt)
    ensures r.exitCode == 1
    ensures r.sinks == Errorf(lg, msg, args, sprintf, s)
    ensures r.sinks.info == s.info && r.sinks.err == s.err
    ensures lg.Noop? ==> r.sinks == s
  {
    match lg
    case Noop => Halt(s, 1)
    case Console(cfg) => Halt(Outputf(cfg, Level.Error, msg, args, sprintf, s), 1)
  }

  /** `Error`: an ERROR concatenation call; its line goes to both
      `infoLog` and `errLog`. */
  function Error(lg: Logger, values: seq<Value>, s: Sinks): (r: Sinks)
    ensures r.std == s.std
    ensures lg.Noop? ==> r == s
    ensures lg.Console? ==> (r == s <==> lg.cfg.min > Level.Error.Rank())
    ensures lg.Console? && lg.cfg.min <= Level.Error.Rank() ==>
      var line := ConcatLine(lg.cfg, Level.Error, JoinValues(values));
      r.info == s.info + [line] && r.err == s.err + [line]
  {
    match lg
    case Noop => s
    case Console(cfg) => Output(cfg, Level.Error, values, s)
  }

  /** `Warn`: a WARN concatenation call. */
  function Warn(lg: Logger, values: seq<Value>, s: Sinks): (r: Sinks)
    ensures r.std == s.std && r.err == s.err
    ensures lg.Noop? ==> r == s
    ensures lg.Console? ==> (r == s <==> lg.cfg.min > Level.Warn.Rank())
    ensures lg.Console? && lg.cfg.min <= Level.Warn.Rank() ==>
      r.info == s.info + [ConcatLine(lg.cfg, Level.Warn, JoinValues(values))]
  {
    match lg
    case Noop => s
    case Console(cfg) => Output(cfg, Level.Warn, values, s)
  }

  /** `Info`: an INFO concatenation call. */
  function Info(lg: Logger, values: seq<Value>, s: Sinks): (r: Sinks)
    ensures r.std == s.std && r.err == s.err
    ensures lg.Noop? ==> r == s
    ensures lg.Console? ==> (r == s <==> lg.cfg.min > Level.Info.Rank())
    ensures lg.Console? && lg.cfg.min <= Level.Info.Rank() ==>
      r.info == s.info + [ConcatLine(lg.cfg, Level.Info, JoinValues(values))]
  {
    match lg
    case Noop => s
    case Console(cfg) => Output(cfg, Level.Info, values, s)
  }

  /** `Debug`: a DEBUG concatenation call. */
  function Debug(lg: Logger, values: seq<Value>, s: Sinks): (r: Sinks)
    ensures r.std == s.std && r.err == s.err
    ensures lg.Noop? ==> r == s
    ensures lg.Console? ==> (r == s <==> lg.cfg.min > Level.Debug.Rank())
    ensures lg.Console? && lg.cfg.min <= Level.Debug.Rank() ==>
      r.info == s.info + [ConcatLine(lg.cfg, Level.Debug, JoinValues(values))]
  {
    match lg
    case Noop => s
    case Console(cfg) => Output(cfg, Level.Debug, values, s)
  }

  /** The JSON text `DebugJsonf` appends after its title: the marshalled
      payload when exactly one payload is given, and "" when marshalling
      fails or the payload count is not one. `json.Marshal` is outside this
      model and is passed in as `marshal`. */
  function JsonText<T>(args: seq<T>, marshal: T -> Option<string>): string
  {
    if |args| == 1 then
      match marshal(args[0])
      case Some(j) => j
      case None => ""
    else ""
  }

  /** A template call without arguments prints its template verbatim:
      `fmt.Sprintf` is not called, so which formatter is passed in plays no
      part. */
  lemma OutputfWithoutArgs(cfg: Config, level: Level, msg: string,
                           f: (string, seq<Value>) -> string, g: (string, seq<Value>) -> string, s: Sinks)
    ensures Outputf(cfg, level, msg, [], f, s) == Outputf(cfg, level, msg, [], g, s)
    ensures Passes(cfg, level) ==> Outputf(cfg, level, msg, [], f, s).std == s.std + [TemplateLine(cfg, level, msg)]
  {
  }

  /** Two string values join to the first, a space, and the second. */
  lemma JoinTwoStrings(a: string, b: string)
    ensures JoinValues([Str(a), Str(b)]) == a + " " + b
  {
    var ts := Texts([Str(a), Str(b)]);
    assert ts[0] == a && ts[1] == b;
    assert ts == [a] + [b];
    JoinSnoc([a], b, ' ');
  }

  /** `DebugJsonf`: gated at DEBUG, then a DEBUG concatenation call with
      the title and the JSON text as its two values, so the body is the
      title, a space, and the JSON text. */
  function DebugJsonf<T>(lg: Logger, title: string, args: seq<T>,
                         marshal: T -> Option<string>, s: Sinks): (r: Sinks)
    ensures r.std == s.std && r.err == s.err
    ensures lg.Noop? ==> r == s
    ensures lg.Console? ==> (r == s <==> lg.cfg.min > Level.Debug.Rank())
    ensures lg.Console? && lg.cfg.min <= Level.Debug.Rank() ==>
      r.info == s.info + [ConcatLine(lg.cfg, Level.Debug, title + " " + JsonText(args, marshal))]
  {
    match lg
    case Noop => s
    case Console(cfg) =>
      if LevelToInt("DEBUG") < cfg.min then s
      else
        JoinTwoStrings(title, JsonText(args, marshal));
        Output(cfg, Level.Debug, [Str(title), Str(JsonText(args, marshal))], s)
  }

  /** With a payload count other than one, or a payload that does not
      marshal, the line carries the title and a single trailing space. */
  lemma DebugJsonfWithoutPayload<T>(cfg: Config, title: string, args: seq<T>,
                                    marshal: T -> Option<string>, s: Sinks)
    requires |args| != 1 || marshal(args[0]).None?
    requires cfg.min <= Level.Debug.Rank()
    ensures DebugJsonf(Console(cfg), title, args, marshal, s).info
      == s.info + [Tag(cfg.mod, Level.Debug) + title + " " + (if cfg.color then ColorReset else "")]
  {
    assert JsonText(args, marshal) == "";
    ColorCodeOfLevel(Level.Debug);
    var body := title + " " + JsonText(args, marshal);
    assert body == title + " ";
    var line := ConcatLine(cfg, Level.Debug, body);
    assert line == Tag(cfg.mod, Level.Debug) + title + " " + (if cfg.color then ColorReset else "");
  }

  /** `json.Marshal` is called only for a single payload: with any other
      count, which marshaller is passed in plays no part. */
  lemma DebugJsonfIgnoresMarshal<T>(lg: Logger, title: string, args: seq<T>,
                                    m1: T -> Option<string>, m2: T -> Option<string>, s: Sinks)
    requires |args| != 1
    ensures DebugJsonf(lg, title, args, m1, s) == DebugJsonf(lg, title, args, m2, s)
  {
    assert JsonText(args, m1) == JsonText(args, m2);
  }

  /** `Write`: the console logger writes `[<module>] ` and `string(p)` to
      `infoLog` whatever its threshold and colour, and reports the number
      of bytes in `p` with no error; the silent logger writes nothing and
      reports 0. */
  function Write(lg: Logger, p: seq<Byte>, s: Sinks): (r: WriteResult)
    ensures r.err == None
    ensures r.sinks.std == s.std && r.sinks.err == s.err
    ensures lg.Noop? ==> r.sinks == s && r.n == 0
    ensures lg.Console? ==> r.n == |p| && r.sinks.info == s.info + ["[" + lg.cfg.mod + "] " + BytesText(p)]
  {
    match lg
    case Noop => WriteResult(s, 0, None)
    case Console(cfg) => WriteResult(s.(info := s.info + ["[" + cfg.mod + "] " + BytesText(p)]), |p|, None)
  }

  /** `Write` depends on the module path only: threshold and colour play
      no part, and the bytes can be read back from the line. */
  lemma WriteIgnoresLevelAndColor(c1: Config, c2: Config, p: seq<Byte>, s: Sinks)
    requires c1.mod == c2.mod
    ensures Write(Console(c1), p, s) == Write(Console(c2), p, s)
    ensures var line := Write(Console(c1), p, s).sinks.info[|s.info|];
      line[..|c1.mod| + 3] == "[" + c1.mod + "] " && TextBytes(line[|c1.mod| + 3..]) == p
  {
    var line := Write(Console(c1), p, s).sinks.info[|s.info|];
    assert line[|c1.mod| + 3..] == BytesText(p);
    BytesTextRoundTrip(p);
  }

  /** The count `Write` reports is in bytes, not characters: the two bytes
      of the UTF-8 encoding of 'é' count as 2. */
  lemma WriteCountsBytes(cfg: Config, s: Sinks)
    ensures Write(Console(cfg), [0xC3, 0xA9], s).n == 2
    ensures |Write(Console(cfg), [0xC3, 0xA9], s).sinks.info| == |s.info| + 1
  {
  }

  // ---------------------------------------------------------------------
  // Sub-loggers
  // ---------------------------------------------------------------------

  /** `Sub(child)`: a console logger's child has module path
      `parent/child` and the parent's colour and threshold; the silent
      logger is its own child. */
  function Sub(lg: Logger, child: string): (r: Logger)
    ensures lg.Noop? ==> r == Noop
    ensures lg.Console? ==> r.Console? && r.cfg.color == lg.cfg.color && r.cfg.min == lg.cfg.min
    ensures lg.Console? ==> r.cfg.mod == lg.cfg.mod + "/" + child
  {
    match lg
    case Noop => Noop
    case Console(cfg) => Console(cfg.(mod := cfg.mod + "/" + child))
  }

  /** The logger reached by calling `Sub` with each name in turn. */
  function SubAll(lg: Logger, names: seq<string>): Logger
  {
    if |names| == 0 then lg else Sub(SubAll(lg, names[..|names| - 1]), names[|names| - 1])
  }

  /** The module path after a chain of `Sub` calls: the root, then each
      name after a '/'. */
  function ModulePath(root: string, names: seq<string>): string
  {
    if |names| == 0 then root else root + "/" + Join(names, '/')
  }

  /** A chain of `Sub` calls on a console logger only extends its module
      path; colour and threshold are inherited unchanged. */
  lemma {:induction false} SubAllPath(cfg: Config, names: seq<string>)
    ensures SubAll(Console(cfg), names) == Console(cfg.(mod := ModulePath(cfg.mod, names)))
  {
    if |names| > 0 {
      var init := names[..|names| - 1];
      SubAllPath(cfg, init);
      JoinSnoc(init, names[|names| - 1], '/');
      assert init + [names[|names| - 1]] == names;
    }
  }

  /** `Sub(a).Sub(b)` has module path `<root>/a/b`. */
  lemma SubTwice(mod: string, minLevel: string, color: bool, a: string, b: string)
    ensures Sub(Sub(Stdout(mod, minLevel, color), a), b)
         == Console(Config(mod + "/" + a + "/" + b, color, Threshold(minLevel)))
  {
  }

  /** Every logger derived from the silent one is the silent one. */
  lemma {:induction false} SubAllOfNoop(names: seq<string>)
    ensures SubAll(Noop, names) == Noop
  {
    if |names| > 0 {
      SubAllOfNoop(names[..|names| - 1]);
    }
  }

  /** Module paths do not collapse: from the same logger, two chains of
      names without '/' give the same module path only if they are the
      same chain. */
  lemma SubAllInjective(cfg: Config, xs: seq<string>, ys: seq<string>)
    requires forall k :: 0 <= k < |xs| ==> '/' !in xs[k]
    requires forall k :: 0 <= k < |ys| ==> '/' !in ys[k]
    requires SubAll(Console(cfg), xs) == SubAll(Console(cfg), ys)
    ensures xs == ys
  {
    SubAllPath(cfg, xs);
    SubAllPath(cfg, ys);
    var px := ModulePath(cfg.mod, xs);
    var py := ModulePath(cfg.mod, ys);
    assert px == py;
    var n := |cfg.mod| + 1;
    if |xs| > 0 && |ys| > 0 {
      assert px[n..] == Join(xs, '/');
      assert py[n..] == Join(ys, '/');
      JoinInjective(xs, ys, '/');
    }
  }

  /** The silent logger writes nothing through any method, reports 0
      from `Write`, is its own sub-logger, and still exits from `Fatalf`. */
  lemma NoopDiscardsEverything<T>(msg: string, args: seq<Value>, sprintf: (string, seq<Value>) -> string,
                                  values: seq<Value>, payload: seq<T>, marshal: T -> Option<string>,
                                  p: seq<Byte>, child: string, s: Sinks)
    ensures Errorf(Noop, msg, args, sprintf, s) == s && Warnf(Noop, msg, args, sprintf, s) == s
    ensures Infof(Noop, msg, args, sprintf, s) == s && Debugf(Noop, msg, args, sprintf, s) == s
    ensures Error(Noop, values, s) == s && Warn(Noop, values, s) == s
    ensures Info(Noop, values, s) == s && Debug(Noop, values, s) == s
    ensures DebugJsonf(Noop, msg, payload, marshal, s) == s
    ensures Write(Noop, p, s) == WriteResult(s, 0, None)
    ensures Sub(Noop, child) == Noop
    ensures Fatalf(Noop, msg, args, sprintf, s) == Halt(s, 1)
  {
  }

  /** A concatenation call at INFO with the values "a", 1 and true writes
      the body "a 1 true". */
  lemma InfoJoinsWithSpaces(mod: string)
    ensures Info(Stdout(mod, "", false), [Str("a"), Signed(Int, 1), Bool(true)], Sinks([], [], [])).info
         == ["[" + mod + " INFO]a 1 true"]
  {
    JoinValuesExample();
    var cfg := Config(mod, false, -1);
    assert Stdout(mod, "", false) == Console(cfg);
    assert ConcatLine(cfg, Level.Info, "a 1 true") == "[" + mod + " INFO]a 1 true";
  }
}
