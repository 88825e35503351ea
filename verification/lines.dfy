/** How a console logger lays out one line: `[<module> <LEVEL>]<message>`,
    wrapped, when colour is on, in the level's ANSI start code and the
    reset code. The two formatters build it separately: the template path
    writes the start code only when it is non-empty, the concatenation path
    writes `colors[level]` unconditionally. */
module Lines {
  import opened Wrappers
  import opened Levels
  import opened Values

  /** The state of a console logger: module path, colour flag and minimum
      level ordinal. It never changes after construction. */
  datatype Config = Config(mod: string, color: bool, min: int)

  /** `[<module> <LEVEL>]`, the tag every leveled line starts with. */
  function Tag(mod: string, level: Level): string
  {
    "[" + mod + " " + level.Name() + "]"
  }

  /** The message of a template call: the template verbatim when there are
      no arguments, otherwise the result of `fmt.Sprintf`, which is outside
      this model and so is passed in as `sprintf`. */
  function Message(msg: string, args: seq<Value>, sprintf: (string, seq<Value>) -> string): string
  {
    if |args| > 0 then sprintf(msg, args) else msg
  }

  /** The line `outputf` writes: the start code if colour is on and the
      level has one, the tag, the message, and the reset code if colour is
      on. */
  function TemplateLine(cfg: Config, level: Level, outmsg: string): (r: string)
    ensures !cfg.color ==> r == Tag(cfg.mod, level) + outmsg
    ensures cfg.color ==> r == ColorCode(level.Name()) + Tag(cfg.mod, level) + outmsg + ColorReset
  {
    var colorStart := if cfg.color then ColorCode(level.Name()) else "";
    var colorReset := if cfg.color then ColorReset else "";
    (if colorStart != "" then colorStart else "")
      + "[" + cfg.mod + " " + level.Name() + "]" + outmsg
      + (if colorReset != "" then colorReset else "")
  }

  /** The line `output` writes for an already joined body. It is the same
      line `outputf` writes for the same message. */
  function ConcatLine(cfg: Config, level: Level, body: string): (r: string)
    ensures r == TemplateLine(cfg, level, body)
  {
    if !cfg.color then
      "[" + cfg.mod + " " + level.Name() + "]" + body
    else
      ColorCode(level.Name()) + "[" + cfg.mod + " " + level.Name() + "]" + body + ColorReset
  }

  /** Recovers the message from a line laid out for `cfg` and `level`, or
      None when the line does not have that layout. */
  function StripLine(cfg: Config, level: Level, line: string): Option<string>
  {
    var prefix := (if cfg.color then ColorCode(level.Name()) else "") + Tag(cfg.mod, level);
    var suffix := if cfg.color then ColorReset else "";
    if |prefix| + |suffix| <= |line|
       && line[..|prefix|] == prefix
       && line[|line| - |suffix|..] == suffix
    then Some(line[|prefix|..|line| - |suffix|])
    else None
  }

  /** The message can always be read back out of the line built from it,
      so distinct messages give distinct lines. */
  lemma LineRoundTrip(cfg: Config, level: Level, outmsg: string)
    ensures StripLine(cfg, level, TemplateLine(cfg, level, outmsg)) == Some(outmsg)
  {
    var line := TemplateLine(cfg, level, outmsg);
    var prefix := (if cfg.color then ColorCode(level.Name()) else "") + Tag(cfg.mod, level);
    var suffix := if cfg.color then ColorReset else "";
    assert line == prefix + outmsg + suffix;
    assert line[..|prefix|] == prefix;
    assert line[|line| - |suffix|..] == suffix;
    assert line[|prefix|..|line| - |suffix|] == outmsg;
  }

  lemma LineInjective(cfg: Config, level: Level, m1: string, m2: string)
    requires TemplateLine(cfg, level, m1) == TemplateLine(cfg, level, m2)
    ensures m1 == m2
  {
    LineRoundTrip(cfg, level, m1);
    LineRoundTrip(cfg, level, m2);
  }

  /** With colour on, a DEBUG line has no start code (it begins with the
      tag's '[') yet still ends with the reset code; the other levels begin
      with the escape character. */
  lemma ColoredDebugLine(cfg: Config, level: Level, outmsg: string)
    requires cfg.color
    ensures level == Debug ==> TemplateLine(cfg, level, outmsg) == Tag(cfg.mod, Debug) + outmsg + ColorReset
    ensures level == Debug ==> TemplateLine(cfg, level, outmsg)[0] == '['
    ensures level != Debug ==> TemplateLine(cfg, level, outmsg)[0] == Esc
    ensures var line := TemplateLine(cfg, level, outmsg);
      |line| >= |ColorReset| && line[|line| - |ColorReset|..] == ColorReset
  {
    var line := TemplateLine(cfg, level, outmsg);
    if level != Debug {
      assert line[0] == ColorCode(level.Name())[0];
    }
  }
}
