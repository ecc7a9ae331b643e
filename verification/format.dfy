/** The two strings every emitted call builds: the log line and the name of the log file. */
module Format {
  import opened Levels
  import opened Text

  datatype Option<T> = None | Some(value: T)

  /** The fixed extension of every log file. */
  const Extension: string := ".log"

  /**
   * The line written for one call:
   * `[<now>] | <LEVEL> | <filePath>\<member>:<line> -> <message>` and a newline.
   * `now` is the emission time already rendered as text.
   */
  function FormatLine(now: string, level: Level, filePath: string, member: string,
                      line: int, message: string): (r: string)
    ensures |r| > |message| + 4 && r[0] == '[' && r[|r| - 1] == '\n'
    ensures r[|r| - |message| - 5 .. |r| - 1] == " -> " + message
  {
    "[" + now + "] | " + level.Name() + " | " + filePath + "\\" + member + ":"
      + IntToDecimal(line) + " -> " + message + "\n"
  }

  /**
   * When none of the caller's texts holds a line break, a formatted line holds
   * exactly one, at its end: every call adds exactly one record to its sink.
   */
  lemma LineIsOneRecord(now: string, level: Level, filePath: string, member: string,
                        line: int, message: string)
    requires '\n' !in now && '\n' !in filePath && '\n' !in member && '\n' !in message
    ensures Count(FormatLine(now, level, filePath, member, line, message), '\n') == 1
  {
    var number := IntToDecimal(line);
    assert '\n' !in level.Name() by {
      assert forall i :: 0 <= i < |level.Name()| ==> level.Name()[i] != '\n';
    }
    assert '\n' !in number by {
      forall i | 0 <= i < |number| ensures number[i] != '\n' {
        if i > 0 || line >= 0 { assert IsDigit(number[i]); }
      }
    }
    var head := "[" + now + "] | " + level.Name() + " | " + filePath + "\\" + member + ":"
      + number + " -> " + message;
    assert FormatLine(now, level, filePath, member, line, message) == head + "\n";
    assert '\n' !in head;
    CountConcat(head, "\n", '\n');
  }

  /** The level a line announces in its second field, if it has one. */
  function LevelOfLine(line: string): Option<Level>
  {
    var i := IndexOf(line, ']');
    if "] | " <= line[i..] then LevelField(line[i + 4..]) else None
  }

  /** The level whose name, followed by the field separator, starts `rest`. */
  function LevelField(rest: string): Option<Level>
  {
    if "TRACE | " <= rest then Some(TRACE)
    else if "DEBUG | " <= rest then Some(DEBUG)
    else if "INFO | " <= rest then Some(INFO)
    else if "WARN | " <= rest then Some(WARN)
    else if "ERROR | " <= rest then Some(ERROR)
    else None
  }

  lemma LevelFieldReadsName(level: Level, tail: string)
    ensures LevelField(level.Name() + " | " + tail) == Some(level)
  {
    var rest := level.Name() + " | " + tail;
    assert rest[0] == level.Name()[0];
    forall other: Level | other != level ensures !(other.Name() + " | " <= rest) {
      NameHeadsDistinct(other, level);
      assert (other.Name() + " | ")[0] != rest[0];
    }
    assert level.Name() + " | " <= rest;
  }

  /** The level field of a line is read right after the bracketed time, when the time holds no `]`. */
  lemma LevelOfLineAfterTime(now: string, rest: string)
    requires ']' !in now
    ensures LevelOfLine("[" + now + "] | " + rest) == LevelField(rest)
  {
    var r := "[" + now + "] | " + rest;
    var i := |now| + 1;
    assert r[i] == ']';
    forall j | 0 <= j < i ensures r[j] != ']' {
      if j > 0 { assert r[j] == now[j - 1]; }
    }
    assert IndexOf(r, ']') == i;
    assert r[i..] == "] | " + rest;
    assert r[i + 4..] == rest;
  }

  /**
   * A reader of the log can tell each line's severity: as long as the rendered
   * time holds no `]`, the level field reads back as the level of the call.
   */
  lemma LevelReadBack(now: string, level: Level, filePath: string, member: string,
                      line: int, message: string)
    requires ']' !in now
    ensures LevelOfLine(FormatLine(now, level, filePath, member, line, message)) == Some(level)
  {
    var tail := filePath + "\\" + member + ":" + IntToDecimal(line) + " -> " + message + "\n";
    assert FormatLine(now, level, filePath, member, line, message)
        == "[" + now + "] | " + (level.Name() + " | " + tail);
    LevelOfLineAfterTime(now, level.Name() + " | " + tail);
    LevelFieldReadsName(level, tail);
  }

  /**
   * The log file a call at `level` goes to: the base name, then `_LEVEL` when
   * levels are kept apart, then `_<run stamp>` when every run gets new files,
   * then the extension.
   */
  function FileNameFor(base: string, separate: bool, newPerRun: bool, runStamp: string,
                       level: Level): (r: string)
    ensures |r| >= |base| + |Extension|
  {
    base + (if separate then "_" + level.Name() else "")
      + (if newPerRun then "_" + runStamp else "") + Extension
  }

  /**
   * The file name begins with the base, ends with the extension, carries the
   * level suffix right after the base and the run suffix right before the
   * extension, and has no other characters.
   */
  lemma FileNameShape(base: string, separate: bool, newPerRun: bool, runStamp: string,
                      level: Level)
    ensures var r := FileNameFor(base, separate, newPerRun, runStamp, level);
      && |r| == |base| + (if separate then 1 + |level.Name()| else 0)
                       + (if newPerRun then 1 + |runStamp| else 0) + |Extension|
      && r[..|base|] == base
      && r[|r| - |Extension|..] == ".log"
      && (separate ==> r[|base|..|base| + 1 + |level.Name()|] == "_" + level.Name())
      && (newPerRun ==> r[|r| - |Extension| - 1 - |runStamp|..|r| - |Extension|] == "_" + runStamp)
  {
    var r := FileNameFor(base, separate, newPerRun, runStamp, level);
    var lv := if separate then "_" + level.Name() else "";
    var rs := if newPerRun then "_" + runStamp else "";
    assert r == base + lv + rs + Extension;
    assert r[..|base|] == base;
    assert r[|r| - |Extension|..] == Extension;
    assert r[|base|..|base| + |lv|] == lv;
    assert r[|base| + |lv|..|r| - |Extension|] == rs;
  }

  /** With per-level files, two different levels always go to two different files. */
  lemma SeparateLevelsDistinct(base: string, newPerRun: bool, runStamp: string, a: Level, b: Level)
    requires a != b
    ensures FileNameFor(base, true, newPerRun, runStamp, a) != FileNameFor(base, true, newPerRun, runStamp, b)
  {
    var ra := FileNameFor(base, true, newPerRun, runStamp, a);
    var rb := FileNameFor(base, true, newPerRun, runStamp, b);
    NameHeadsDistinct(a, b);
    assert ra[|base| + 1] == a.Name()[0];
    assert rb[|base| + 1] == b.Name()[0];
  }

  /** Without per-level files, every level goes to the same file. */
  lemma SharedFileWithoutSeparation(base: string, newPerRun: bool, runStamp: string, a: Level, b: Level)
    ensures FileNameFor(base, false, newPerRun, runStamp, a) == FileNameFor(base, false, newPerRun, runStamp, b)
  {
  }

  /** With new files per run, two runs with different start stamps never share a file. */
  lemma RunsDistinct(base: string, separate: bool, stamp1: string, stamp2: string, level: Level)
    requires stamp1 != stamp2
    ensures FileNameFor(base, separate, true, stamp1, level) != FileNameFor(base, separate, true, stamp2, level)
  {
    var prefix := base + (if separate then "_" + level.Name() else "") + "_";
    var r1 := FileNameFor(base, separate, true, stamp1, level);
    var r2 := FileNameFor(base, separate, true, stamp2, level);
    assert r1 == prefix + stamp1 + Extension;
    assert r2 == prefix + stamp2 + Extension;
    assert r1[|prefix|..|r1| - |Extension|] == stamp1;
    assert r2[|prefix|..|r2| - |Extension|] == stamp2;
  }
}
