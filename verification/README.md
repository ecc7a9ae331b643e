# Leveled logger — Dafny model

A model of the static `Log` class of the Logger project: a logger with a
process-wide configuration (minimum level, write mode, base file name,
one-file-per-level flag, new-files-per-run flag) and one entry point per
severity. Each call is dropped when its level ranks below the minimum;
otherwise it is formatted as
`[<time>] | <LEVEL> | <file>\<member>:<line> -> <message>` plus a newline,
a log file name is built as base, then `_LEVEL` when levels are kept apart,
then `_<run stamp>` when each run gets new files, then `.log`, and the line
goes to the console, to that file, to both, or, for a write mode that is not
one of the three members of the enumeration, to the console behind the
marker "Неопределенный режим записи. " ("undefined write mode. ").

Files and modules:

- `levels.dfy`, module `Levels`: the severity enumeration with its order and
  names, the filter predicate `Passes`, and the write mode, whose fourth
  constructor `Unrecognised(code)` stands for an integer outside 0..2 cast to
  the enumeration (the only way into the switch's default branch).
- `text.dfy`, module `Text`: decimal rendering of the `int` line number (and
  its parser, for the round trip), character counting and search.
- `format.dfy`, module `Format`: the line formatter, a reader of the level
  field, and the file-name rule with its lemmas.
- `sinks.dfy`, module `Sinks`: the sinks as values (console = sequence of
  written texts, file system = map from file name to contents), appending to
  a file, the dispatch switch, and `Emitted`, the whole effect of one call as
  a function of the settings; the lemmas about filtering and dispatch.
- `log.dfy`, module `Log`: class `Logger`, with the five settings as mutable
  fields, the run stamp as a `const`, the two sinks as fields, one setter per
  setting, `WriteData` (which builds the file name step by step as the source
  does) and the five per-level wrappers, each proved to have exactly the
  effect `Emitted` describes.

Substitutions for the environment: the time of each call is a string
parameter `now`; the run stamp and the entry assembly's name are constructor
parameters; the files already on disk are a constructor parameter; the
caller's file path, member name and line number are explicit arguments.

## Model

| member | source | states |
|---|---|---|
| Levels.Level.Rank | Log.cs:13 | the rank is the enumeration position, below 5; 0 exactly for TRACE, 4 exactly for ERROR |
| Levels.Level.Name | Log.cs:13 | a level's name is 4 or 5 upper-case letters |
| Levels.LevelOfRank | Log.cs:13 | every position 0..4 is the rank of some level (inverse of `Rank`) |
| Levels.RankInjective | Log.cs:13 | two levels have the same rank exactly when they are the same level |
| Levels.PassesMonotone | Log.cs:144-145 | if a level passes the minimum, every higher-ranked level passes too |
| Levels.PassesExtremes | Log.cs:144-145 | with minimum TRACE every level passes; every level passes its own minimum; with minimum ERROR only ERROR passes |
| Levels.NameHeadsDistinct | Log.cs:13 | names of different levels differ already in their first letter |
| Levels.FromCode | Log.cs:20 | the cast keeps the integer value, and yields the unrecognised mode exactly for codes outside 0..2 |
| Levels.CodeRoundTrip | Log.cs:20 | casting a mode's integer value back gives the same mode |
| Text.NatToDecimal | Log.cs:148 | a natural number renders as at least one decimal digit, with no leading zero |
| Text.IntToDecimal | Log.cs:148 | the line number renders as digits, preceded by a minus sign exactly when it is negative |
| Text.NatDecimalRoundTrip | Log.cs:148 | the digits of a natural number read back as that number |
| Text.IntDecimalRoundTrip | Log.cs:148 | the rendered line number parses back to the same integer |
| Format.FormatLine | Log.cs:148 | the line starts with `[`, ends with a newline, and ends in ` -> ` followed by the message and the newline |
| Format.LineIsOneRecord | Log.cs:148 | if the caller's texts and time hold no line break, the formatted line holds exactly one newline |
| Format.LevelReadBack | Log.cs:148 | if the time holds no `]`, reading the level field of the line gives back the call's level |
| Format.FileNameFor | Log.cs:151-156 | the file name is at least as long as the base name plus the extension |
| Format.FileNameShape | Log.cs:151-156 | the name is base, then `_LEVEL` if separate, then `_<run stamp>` if new per run, then `.log`, nothing else (exact length and position of each part) |
| Format.SeparateLevelsDistinct | Log.cs:152-153 | with per-level files, two different levels never share a file name |
| Format.SharedFileWithoutSeparation | Log.cs:151-156 | without per-level files, all levels use the same file name |
| Format.RunsDistinct | Log.cs:154-155 | with new files per run, two different run stamps never give the same file name |
| Sinks.AppendFile | Log.cs:165 | appending creates the file if absent, adds the text to its end otherwise, and leaves every other file as it was |
| Sinks.FilteredCallIsSilent | Log.cs:144-145 | a call ranked below the minimum leaves the console and every file unchanged, and creates no file |
| Sinks.PassingCallEffect | Log.cs:159-174 | a passing call: CONSOLE adds the line to the console only; FILE appends it to the computed file only; CONSOLE_AND_FILE does both; an unrecognised mode writes the marker and the line to the console and touches no file |
| Sinks.OnlyTargetFileChanges | Log.cs:151-174 | no file other than the computed one is created, removed or changed by a call |
| Sinks.RepeatedCallsShareFile | Log.cs:151-156 | two passing FILE-mode calls at one level under one configuration append both lines, in order, to the same file |
| Sinks.AppScenario | Log.cs:140-174 | minimum DEBUG, both sinks, base "App": a TRACE call changes nothing; a DEBUG call adds its line to the console and to `App.log` |
| Log.Logger.constructor | Log.cs:27-50 | the defaults: TRACE, console only, file named after the program, both flags off, run stamp fixed, no console output yet |
| Log.Logger.SetLevel | Log.cs:54-58 | the setter changes the minimum level and nothing else |
| Log.Logger.SetWriteMode | Log.cs:61-65 | the setter changes the write mode and nothing else |
| Log.Logger.SetFileName | Log.cs:68-72 | the setter changes the base file name and nothing else |
| Log.Logger.SetSeparateLogging | Log.cs:75-78 | the setter changes the per-level-files flag and nothing else |
| Log.Logger.SetNewFileForNewStartProgram | Log.cs:81-85 | the setter changes the new-files-per-run flag and nothing else |
| Log.Logger.WriteData | Log.cs:140-174 | the sinks afterwards are exactly those `Emitted` gives for the current settings; a call ranked below the minimum changes neither sink; the settings and run stamp are unchanged |
| Log.Logger.Trace | Log.cs:98-103 | a call with level TRACE, passing message and caller data through unchanged |
| Log.Logger.Debug | Log.cs:105-110 | a call with level DEBUG, passing message and caller data through unchanged |
| Log.Logger.Info | Log.cs:112-117 | a call with level INFO, passing message and caller data through unchanged |
| Log.Logger.Warn | Log.cs:118-123 | a call with level WARN, passing message and caller data through unchanged |
| Log.Logger.Error | Log.cs:124-129 | a call with level ERROR, passing message and caller data through unchanged |

## Left out

- Program.cs, the demonstration entry point: it only sets options, logs four lines and waits for a key.
- The property getters (Log.cs:56, 63, 70, 76, 83): they return the field, which the model reads directly.
- Console and file I/O: the console is a sequence of written texts and the file system a map; an append always succeeds, since the source does not catch I/O exceptions.
- The clock: the time of a call is the parameter `now`, and the run stamp (rendered as `yyyy-MM-dd_HH-mm-ss`, taken when the class is first initialised) is a constructor parameter; date formatting is not modelled.
- The default file name read by reflection from the entry assembly: a constructor parameter.
- Caller-information attributes: file path, member name and line number are explicit arguments.
- Culture-dependent formatting of the line number: a negative number is written with `-`.
- Levels outside the five enumeration members (reachable only by casting an integer to the level enumeration): the model's level type has exactly the five members.
- Concurrent use of the unsynchronised static fields.
