/**
 * What one log call does to the outside world, as a function of the settings
 * it reads: the console is the sequence of texts written to it so far, the file
 * system a map from file name to the file's accumulated contents.
 */
module Sinks {
  import opened Levels
  import opened Format

  /** The marker the defensive branch puts before the line ("undefined write mode. "). */
  const UndefinedModePrefix: string := "Неопределенный режим записи. "

  /** The settings a call reads: the five configurable values and the run stamp fixed at start-up. */
  datatype Config = Config(level: Level, writeMode: WriteMode, fileName: string,
                           separateLogging: bool, newFileForNewStartProgram: bool,
                           runStamp: string)

  datatype Output = Output(console: seq<string>, files: map<string, string>)

  /** Appending to a file, which creates the file when it does not exist yet. */
  function AppendFile(files: map<string, string>, name: string, text: string): (r: map<string, string>)
    ensures r.Keys == files.Keys + {name}
    ensures name in files ==> r[name] == files[name] + text
    ensures name !in files ==> r[name] == text
    ensures forall other :: other in files && other != name ==> r[other] == files[other]
  {
    files[name := (if name in files then files[name] else "") + text]
  }

  /** The file a call at `level` writes to under `cfg`. */
  function TargetFile(cfg: Config, level: Level): string
  {
    FileNameFor(cfg.fileName, cfg.separateLogging, cfg.newFileForNewStartProgram, cfg.runStamp, level)
  }

  /** The switch on the write mode, given the already formatted line and file name. */
  function Dispatch(mode: WriteMode, out: Output, fileName: string, text: string): Output
  {
    match mode
    case CONSOLE => out.(console := out.console + [text])
    case FILE => out.(files := AppendFile(out.files, fileName, text))
    case CONSOLE_AND_FILE => Output(out.console + [text], AppendFile(out.files, fileName, text))
    case Unrecognised(_) => out.(console := out.console + [UndefinedModePrefix + text])
  }

  /** One call: the level filter, then formatting, the file name and the dispatch. */
  function Emitted(cfg: Config, out: Output, level: Level, now: string, message: string,
                   filePath: string, member: string, line: int): Output
  {
    if !Passes(level, cfg.level) then out
    else Dispatch(cfg.writeMode, out, TargetFile(cfg, level),
                  FormatLine(now, level, filePath, member, line, message))
  }

  /** A call below the minimum level writes nothing anywhere and creates no file. */
  lemma FilteredCallIsSilent(cfg: Config, out: Output, level: Level, now: string,
                             message: string, filePath: string, member: string, line: int)
    requires level.Rank() < cfg.level.Rank()
    ensures Emitted(cfg, out, level, now, message, filePath, member, line) == out
  {
  }

  /**
   * The effect of a call that passes the filter, mode by mode: which sink gains
   * the formatted line, and that every other sink stays as it was.
   */
  lemma PassingCallEffect(cfg: Config, out: Output, level: Level, now: string,
                          message: string, filePath: string, member: string, line: int)
    requires Passes(level, cfg.level)
    ensures var r := Emitted(cfg, out, level, now, message, filePath, member, line);
      var text := FormatLine(now, level, filePath, member, line, message);
      var name := TargetFile(cfg, level);
      && (cfg.writeMode.CONSOLE? || cfg.writeMode.CONSOLE_AND_FILE? ==> r.console == out.console + [text])
      && (cfg.writeMode.FILE? ==> r.console == out.console)
      && (cfg.writeMode.Unrecognised? ==> r.console == out.console + [UndefinedModePrefix + text])
      && (cfg.writeMode.FILE? || cfg.writeMode.CONSOLE_AND_FILE? ==>
            r.files.Keys == out.files.Keys + {name}
            && r.files[name] == (if name in out.files then out.files[name] else "") + text)
      && (cfg.writeMode.CONSOLE? || cfg.writeMode.Unrecognised? ==> r.files == out.files)
  {
  }

  /** Whatever the mode and level, no file other than the computed one changes. */
  lemma OnlyTargetFileChanges(cfg: Config, out: Output, level: Level, now: string,
                              message: string, filePath: string, member: string, line: int,
                              other: string)
    requires other != TargetFile(cfg, level)
    ensures var r := Emitted(cfg, out, level, now, message, filePath, member, line);
      (other in r.files <==> other in out.files)
      && (other in out.files ==> r.files[other] == out.files[other])
  {
  }

  /**
   * Two passing file writes at the same level under the same settings land in
   * the same file, one line after the other: the file name depends only on the
   * settings and the level, and the run stamp never changes.
   */
  lemma RepeatedCallsShareFile(cfg: Config, out: Output, level: Level,
                               now1: string, message1: string, now2: string, message2: string,
                               filePath: string, member: string, line1: int, line2: int)
    requires Passes(level, cfg.level) && cfg.writeMode.FILE?
    ensures var mid := Emitted(cfg, out, level, now1, message1, filePath, member, line1);
      var r := Emitted(cfg, mid, level, now2, message2, filePath, member, line2);
      var name := TargetFile(cfg, level);
      r.files[name] == (if name in out.files then out.files[name] else "")
        + FormatLine(now1, level, filePath, member, line1, message1)
        + FormatLine(now2, level, filePath, member, line2, message2)
  {
  }

  /**
   * The documented scenario: minimum DEBUG, both sinks, one shared file named
   * after "App". A TRACE call emits nothing; a DEBUG call writes its line to the
   * console and appends the same line to "App.log".
   */
  lemma AppScenario(out: Output, now: string, filePath: string, member: string, line: int)
    ensures var cfg := Config(DEBUG, CONSOLE_AND_FILE, "App", false, false, "");
      && Emitted(cfg, out, TRACE, now, "x", filePath, member, line) == out
      && var r := Emitted(cfg, out, DEBUG, now, "y", filePath, member, line);
      var text := FormatLine(now, DEBUG, filePath, member, line, "y");
      && r.console == out.console + [text]
      && r.files.Keys == out.files.Keys + {"App.log"}
      && r.files["App.log"] == (if "App.log" in out.files then out.files["App.log"] else "") + text
  {
    var cfg := Config(DEBUG, CONSOLE_AND_FILE, "App", false, false, "");
    assert TargetFile(cfg, DEBUG) == "App" + "" + "" + ".log" == "App.log";
  }
}
