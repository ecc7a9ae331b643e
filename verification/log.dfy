/**
 * The logger itself: one object holding the five settings, the run stamp taken
 * at start-up, and the two sinks it writes to.
 */
module Log {
  import opened Levels
  import opened Format
  import opened Sinks

  class Logger {
    /** Minimum level a call must reach to be written. */
    var level: Level
    /** Where lines go: console, file, both, or an unrecognised cast value. */
    var writeMode: WriteMode
    /** Base name of the log file, without suffixes or extension. */
    var fileName: string
    /** Whether each level gets a file of its own. */
    var separateLogging: bool
    /** Whether the run stamp becomes part of the file name. */
    var newFileForNewStartProgram: bool
    /** The start time of the run, rendered once when the logger comes into being. */
    const dateTimeNow: string

    /** Every text written to the console so far, in order. */
    var console: seq<string>
    /** The file system: each file's name and its contents. */
    var files: map<string, string>

    /** The settings a call reads at the moment it is made. */
    function Settings(): Config
      reads this
    {
      Config(level, writeMode, fileName, separateLogging, newFileForNewStartProgram, dateTimeNow)
    }

    /** The current state of both sinks. */
    function Sinks(): Output
      reads this
    {
      Output(console, files)
    }

    /**
     * Start-up: TRACE, console only, one shared file named after the program,
     * no run stamp in the name. `programName` stands for the entry assembly's
     * name, `startTime` for the rendered start time, `existing` for the files
     * already on disk.
     */
    constructor (programName: string, startTime: string, existing: map<string, string>)
      ensures level == TRACE && writeMode == CONSOLE && fileName == programName
      ensures !separateLogging && !newFileForNewStartProgram && dateTimeNow == startTime
      ensures console == [] && files == existing
    {
      level := TRACE;
      writeMode := CONSOLE;
      fileName := programName;
      separateLogging := false;
      newFileForNewStartProgram := false;
      dateTimeNow := startTime;
      console := [];
      files := existing;
    }

    method SetLevel(value: Level)
      modifies this`level
      ensures level == value
    {
      level := value;
    }

    method SetWriteMode(value: WriteMode)
      modifies this`writeMode
      ensures writeMode == value
    {
      writeMode := value;
    }

    method SetFileName(value: string)
      modifies this`fileName
      ensures fileName == value
    {
      fileName := value;
    }

    method SetSeparateLogging(value: bool)
      modifies this`separateLogging
      ensures separateLogging == value
    {
      separateLogging := value;
    }

    method SetNewFileForNewStartProgram(value: bool)
      modifies this`newFileForNewStartProgram
      ensures newFileForNewStartProgram == value
    {
      newFileForNewStartProgram := value;
    }

    /**
     * One log call at `levelMessage`, made at the time rendered as `now`:
     * filter, format, build the file name piece by piece, then dispatch.
     */
    method WriteData(levelMessage: Level, message: string, filePath: string, member: string,
                     line: int, now: string)
      modifies this`console, this`files
      ensures Sinks() == Emitted(Settings(), old(Sinks()), levelMessage, now, message, filePath, member, line)
      ensures levelMessage.Rank() < level.Rank() ==> console == old(console) && files == old(files)
    {
      if levelMessage.Rank() < level.Rank() {
        return;
      }

      var text := FormatLine(now, levelMessage, filePath, member, line, message);

      ghost var levelPart := if separateLogging then "_" + levelMessage.Name() else "";
      ghost var runPart := if newFileForNewStartProgram then "_" + dateTimeNow else "";
      var name := fileName;
      if separateLogging {
        name := name + "_" + levelMessage.Name();
      }
      assert name == fileName + levelPart;
      if newFileForNewStartProgram {
        name := name + "_" + dateTimeNow;
      }
      assert name == fileName + levelPart + runPart;
      name := name + Extension;
      assert name == TargetFile(Settings(), levelMessage);

      ghost var before := Sinks();
      match writeMode {
        case CONSOLE =>
          console := console + [text];
        case FILE =>
          files := AppendFile(files, name, text);
        case CONSOLE_AND_FILE =>
          console := console + [text];
          files := AppendFile(files, name, text);
        case Unrecognised(_) =>
          console := console + [UndefinedModePrefix + text];
      }
      assert Sinks() == Dispatch(writeMode, before, name, text);
    }

    method Trace(message: string, filePath: string, member: string, line: int, now: string)
      modifies this`console, this`files
      ensures Sinks() == Emitted(Settings(), old(Sinks()), TRACE, now, message, filePath, member, line)
    {
      WriteData(TRACE, message, filePath, member, line, now);
    }

    method Debug(message: string, filePath: string, member: string, line: int, now: string)
      modifies this`console, this`files
      ensures Sinks() == Emitted(Settings(), old(Sinks()), DEBUG, now, message, filePath, member, line)
    {
      WriteData(DEBUG, message, filePath, member, line, now);
    }

    method Info(message: string, filePath: string, member: string, line: int, now: string)
      modifies this`console, this`files
      ensures Sinks() == Emitted(Settings(), old(Sinks()), INFO, now, message, filePath, member, line)
    {
      WriteData(INFO, message, filePath, member, line, now);
    }

    method Warn(message: string, filePath: string, member: string, line: int, now: string)
      modifies this`console, this`files
      ensures Sinks() == Emitted(Settings(), old(Sinks()), WARN, now, message, filePath, member, line)
    {
      WriteData(WARN, message, filePath, member, line, now);
    }

    method Error(message: string, filePath: string, member: string, line: int, now: string)
      modifies this`console, this`files
      ensures Sinks() == Emitted(Settings(), old(Sinks()), ERROR, now, message, filePath, member, line)
    {
      WriteData(ERROR, message, filePath, member, line, now);
    }
  }
}
