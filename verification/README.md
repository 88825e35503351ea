# walog logging facade in Dafny

This project models `walog`, a small Go logging facade. It has a `Logger`
interface with two implementations:

- the silent logger (`noopLogger`), which drops everything;
- the console logger (`stdoutLogger`), which writes leveled lines of the form
  `[<module> <LEVEL>]<message>`, optionally wrapped in ANSI colour codes.

The model is functional. Every output stream is the sequence of lines written
to it so far. `Sinks` holds three of them:

- `std`: the package-standard `log` output, used by template calls (`Infof`, …);
- `info`: `infoLog`, used by concatenation calls (`Info`, …) and by `Write`;
- `err`: `errLog`, which receives a copy of every ERROR concatenation line.

Each logger method is a pure function from the logger, its arguments and the
current `Sinks` to the new `Sinks`.

Modules follow the parts of `log.go`:

- `Text`: the pieces of Go's `strings`/`strconv` the logger uses. It has `ToUpper`
  and base-10 integer text (`Itoa`, `NatText`), with the parser `ParseInt`
  as their partner. It also has joining on a separator (`Join`), with the
  splitter `Split` as its partner.
- `Levels`: the `levelToInt`, `LevelToSeverity` and `colors` tables, and the
  threshold `Stdout` derives from a level name. A missing key reads as Go's
  zero value: 0 for an unknown level name and "" for DEBUG's colour.
- `Values`: `v2s` (`ToText`) over a closed sum type of values, and `writeToBf`
  (`WriteToBuffer`, a loop, against its reference `JoinValues`).
- `Lines`: the line built by `outputf` (`TemplateLine`) and by `output`
  (`ConcatLine`). They are proved to be the same line. `StripLine` reads the
  message back out of a line.
- `Logger`: `Sinks`, `Logger = Noop | Console(cfg)`, `Stdout`, the gate, and
  every interface method, plus `Sub` and chains of `Sub` calls.

Two details of the code are kept exactly as written:

- With colour on, a DEBUG line has no start code (the `colors` table has no
  DEBUG entry) but still ends with the reset code.
- A `uint` goes through `int(value)` before `strconv.Itoa`, so a value above
  MaxInt64 prints as a negative number.

One more detail differs from what the interface suggests. The console
`Write` reports the full length written, but the silent logger's `Write`
returns 0 with a nil error. The model follows the code and returns 0.

## Model

| member | source | states |
|---|---|---|
| Text.ToUpper | log.go:228 | upper-casing keeps the length, maps each rune by `UpperChar`, and yields text that upper-casing leaves unchanged |
| Text.ToUpperIdempotent | log.go:228 | upper-casing an upper-cased name changes nothing |
| Text.ToUpperEqualFold | log.go:228 | names whose runes agree up to case upper-case to the same text |
| Text.NatText | log.go:273-274 | `FormatUint` text is non-empty, all digits, and starts with '0' only for zero |
| Text.NatTextRoundTrip | log.go:273-274 | parsing the digits of n gives back n |
| Text.Itoa | log.go:255-272 | `Itoa`/`FormatInt` text is canonical decimal (no leading zero, no "-0") and starts with '-' exactly when the number is negative |
| Text.ItoaRoundTrip | log.go:255-272 | parsing the text of i gives back i |
| Text.ItoaInjective | log.go:255-272 | distinct integers print differently |
| Text.BytesTextRoundTrip | log.go:148 | `string(p)` keeps every byte of `p`: the bytes can be read back from the string |
| Text.JoinShape | log.go:233-241 | a join of n parts is their lengths plus n - 1 separators, starts with the first part and ends with the last (so no separator comes before the first part or after the last), and is "" for no parts |
| Text.SplitJoin | log.go:233-241 | splitting a join of separator-free parts at the separator gives back the parts |
| Text.JoinInjective | log.go:215 | joins of separator-free, non-empty lists of parts are equal only if the lists are equal |
| Levels.LevelToInt | log.go:93-99 | "" is -1 and only "" is; each level name maps to its rank 0..3; any other name maps to 0 |
| Levels.LevelToSeverity | log.go:101-107 | DEBUG and INFO are class 0, WARN 1, ERROR 2, and "" or an unknown name 0 |
| Levels.SeverityMonotone | log.go:101-107 | a more severe level never has a lower severity class |
| Levels.ColorCode | log.go:87-91 | INFO is ESC "[36m", WARN ESC "[33m", ERROR ESC "[31m"; every other name, DEBUG included, has the empty code; no code is the reset code |
| Levels.ColorCodeOfLevel | log.go:87-91 | among the four levels only DEBUG has no colour code |
| Levels.ColorCodesDistinct | log.go:87-91 | no two levels share a start code |
| Levels.Threshold | log.go:228 | the threshold is -1 exactly for "", the rank of the level whose name the upper-cased text equals, and 0 for any other text |
| Levels.ThresholdCaseInsensitive | log.go:228 | upper-casing the level name first gives the same threshold |
| Levels.ThresholdOfAnyCase | log.go:228 | every mixed-case spelling of a level name gives that level's rank |
| Levels.ThresholdPermissive | log.go:228 | for an empty or unrecognised name, all four levels are at or above the threshold |
| Values.UintToInt | log.go:257-258 | `int(uint)` is congruent to the value mod 2^64, lies in the int64 range, and is negative exactly for values above MaxInt64 |
| Values.ToText | log.go:243-289 | nil gives "", bool gives "true"/"false", a string gives itself, and every integer kind gives canonical decimal text; non-`uint` unsigned values never print a '-' |
| Values.InRangeIntegerText | log.go:255-274 | for the values each Go integer kind can hold, the text is the value itself, except that a `uint` above MaxInt64 prints as the value minus 2^64 |
| Values.ToTextIntegerRoundTrip | log.go:255-274 | integer text parses back to the value, and to the wrapped `int(value)` for a `uint` |
| Values.UintAboveMaxIntPrintsNegative | log.go:257-258 | a `uint` above MaxInt64 prints with a '-', while the same value as `uint64` does not |
| Values.LargestUintPrintsMinusOne | log.go:257-258 | the largest `uint` prints "-1" |
| Values.JoinValuesShape | log.go:233-241 | the body of n values is their texts plus n - 1 spaces, starting with the first text and ending with the last, so no space is written before the first text or after the last; no values give "" |
| Values.JoinValuesEmptyFirst | log.go:233-241 | a value with empty text still gets its separating space: nil then "x" gives " x" |
| Values.JoinValuesSplits | log.go:233-241 | when no text contains a space, splitting the body at spaces gives back the texts in order |
| Values.JoinValuesExample | log.go:233-241 | the values "a", 1 and true join to "a 1 true" |
| Values.WriteToBuffer | log.go:233-241 | the buffer loop appends exactly the space-joined body to what the buffer held |
| Lines.TemplateLine | log.go:113-137 | without colour the line is tag + message; with colour it is start code + tag + message + reset |
| Lines.ConcatLine | log.go:162-179 | the concatenation formatter builds the same line as the template formatter for the same message |
| Lines.LineRoundTrip | log.go:125-137 | the message can be read back out of the line built from it |
| Lines.LineInjective | log.go:125-137 | different messages give different lines for the same logger and level |
| Lines.ColoredDebugLine | log.go:113-117 | with colour on, a DEBUG line starts with '[' and still ends with the reset code; other levels start with ESC |
| Logger.Stdout | log.go:223-229 | a level name spelled in any case lets through exactly the levels ranked at or above it; an empty or unknown name lets every level through |
| Logger.StdoutCaseInsensitive | log.go:228 | upper-casing the level name builds the same logger |
| Logger.Passes | log.go:110-112 | a call goes ahead exactly when its level's rank is at least the threshold |
| Logger.Outputf | log.go:109-141 | a template call writes nothing below the threshold; otherwise it writes one line to the standard log and never to `infoLog` or `errLog` |
| Logger.OutputfWithoutArgs | log.go:118-121 | without arguments the template is printed verbatim, and the result is the same whatever formatter is passed in, since `fmt.Sprintf` is not called |
| Logger.Output | log.go:153-187 | a concatenation call writes nothing below the threshold; otherwise it writes one line to `infoLog`, and an ERROR line is also written unchanged to `errLog` |
| Logger.Errorf | log.go:193 | an ERROR template call writes only to the standard log, gated at ERROR |
| Logger.Warnf | log.go:194 | a WARN template call writes only to the standard log, gated at WARN |
| Logger.Infof | log.go:195 | an INFO template call writes only to the standard log, gated at INFO |
| Logger.Debugf | log.go:196 | a DEBUG template call writes only to the standard log, gated at DEBUG |
| Logger.Fatalf | log.go:189-192 | writes what `Errorf` writes, then halts with status 1 whatever the threshold; the silent logger halts too |
| Logger.Error | log.go:198 | an ERROR concatenation call writes the same line to `infoLog` and `errLog`, gated at ERROR |
| Logger.Warn | log.go:197 | a WARN concatenation call writes one line to `infoLog` only, gated at WARN |
| Logger.Info | log.go:199 | an INFO concatenation call writes one line to `infoLog` only, gated at INFO |
| Logger.Debug | log.go:200 | a DEBUG concatenation call writes one line to `infoLog` only, gated at DEBUG |
| Logger.DebugJsonf | log.go:202-212 | gated at DEBUG, it writes one `infoLog` line whose body is the label, a space, and the payload text |
| Logger.DebugJsonfWithoutPayload | log.go:207-211 | with an argument count other than one, or a single argument that fails to marshal, the body is the label followed by one space |
| Logger.DebugJsonfIgnoresMarshal | log.go:207-210 | `json.Marshal` is called only for a single argument: with any other count the result is the same whatever marshaller is passed in |
| Logger.Write | log.go:143-151 | the console logger writes `[<module>] ` + `string(p)` to `infoLog` and returns the byte count `len(p)` with no error; the silent one returns 0 and no error |
| Logger.WriteIgnoresLevelAndColor | log.go:143-151 | `Write` does not depend on threshold or colour, and the bytes can be read back from the line |
| Logger.WriteCountsBytes | log.go:150 | the count is in bytes: the two UTF-8 bytes of 'é' count as 2 |
| Logger.Sub | log.go:214-216 | a child has path `parent/child` and keeps colour and threshold; the silent logger is its own child |
| Logger.SubAllPath | log.go:214-216 | a chain of `Sub` calls gives the root, a '/', and the names joined by '/', with colour and threshold inherited |
| Logger.SubTwice | log.go:214-216 | `Sub(a).Sub(b)` has module path `<root>/a/b` |
| Logger.SubAllOfNoop | log.go:65 | every chain of `Sub` calls on the silent logger returns the silent logger |
| Logger.SubAllInjective | log.go:215 | two chains of names without '/' give the same logger only if they are the same chain |
| Logger.NoopDiscardsEverything | log.go:52-65 | every method of the silent logger leaves all streams unchanged; `Write` returns 0, `Sub` returns itself, and `Fatalf` halts with status 1 |
| Logger.InfoJoinsWithSpaces | log.go:199 | `Info("a", 1, true)` on an unfiltered, uncoloured logger writes `[<module> INFO]a 1 true` |

## Left out

- Timestamps and call-site decoration: `log.Output` prefixes, `calldepth` and `Lshortfile` belong to Go's `log` package. A stream holds only the line the logger passes to it.
- Process exit: `os.Exit(1)` in `Fatalf` becomes the `Halt` result with `exitCode` 1.
- Buffer pooling: `sync.Pool` and `bytes.Buffer` only reuse memory. The line is modelled as plain string concatenation.
- Concurrency: every call is modelled as one sequential step.
- `fmt.Sprintf`: it belongs to Go's `fmt` package and is passed in as the `sprintf` parameter. The model fixes only that it is skipped when there are no arguments.
- `json.Marshal`: it belongs to Go's `encoding/json` package and is passed in as the `marshal` parameter. A failure is `None`.
- `v2s` for errors, floats, byte slices and the `%v` default: their text comes from code outside this model. It is carried by the `Opaque` value.
- `B2S` (b2s.go): it is an `unsafe` zero-copy conversion, reached only from `v2s` for a `[]byte` value, whose text the `Opaque` value carries. `Write` does not use it: it copies its bytes with `string(p)`, modelled by `Text.BytesText`.
- Logger.Write: only the part of the line taken from `p` is held as bytes, one character per byte; the module path before it stays a sequence of runes, like every other string of the model. Go's line is bytes throughout, so once the module path holds non-ASCII text the model's `Write` line is not the byte form of Go's line. Once the module path or the bytes hold non-ASCII text, a `Write` line cannot be compared with the `Info`/`Warn`/`Error`/`Debug` lines on `infoLog`, which are runes throughout. The reported count is exact.
- Global initialisation: the lazy creation of `infoLog`/`errLog` in `Stdout`, the unused `ColorLog` variable and the empty `LogSubName` have no logic to model.
- `Sync`: it does nothing in either implementation, so it has no model.
- The level argument of `outputf`/`output` is the `Level` datatype. Every caller passes one of the four level literals. The tables are still looked up by the level's name.
- Go's `int` and `uint` are taken to be 64 bits wide. `Value` admits any integer for every kind; `Values.InKindRange` states the range each kind can hold, and only `InRangeIntegerText` assumes it.
- Text.ToUpper: only ASCII letters and the two non-ASCII runes whose upper case is ASCII (dotless i and long s) are upper-cased. Other non-ASCII runes are kept. Their upper case is non-ASCII anyway, so this never changes which level name, and so which threshold, a name yields.
