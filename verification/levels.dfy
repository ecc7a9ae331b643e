/** The two enumerations of the logger: severity levels and write modes. */
module Levels {

  /** Severity of a log call, in the order the filter compares them. */
  datatype Level = TRACE | DEBUG | INFO | WARN | ERROR {

    /** Position in the enumeration, which is the value the filter compares. */
    function Rank(): (r: nat)
      ensures r < 5
      ensures r == 0 <==> this == TRACE
      ensures r == 4 <==> this == ERROR
    {
      match this
      case TRACE => 0
      case DEBUG => 1
      case INFO => 2
      case WARN => 3
      case ERROR => 4
    }

    /** The enumeration member's textual name, as printed in a line and a file name. */
    function Name(): (s: string)
      ensures 4 <= |s| <= 5
      ensures forall i :: 0 <= i < |s| ==> 'A' <= s[i] <= 'Z'
    {
      match this
      case TRACE => "TRACE"
      case DEBUG => "DEBUG"
      case INFO => "INFO"
      case WARN => "WARN"
      case ERROR => "ERROR"
    }
  }

  /** The level whose rank is `r`: the inverse of `Rank`. */
  function LevelOfRank(r: nat): (l: Level)
    requires r < 5
    ensures l.Rank() == r
  {
    if r == 0 then TRACE
    else if r == 1 then DEBUG
    else if r == 2 then INFO
    else if r == 3 then WARN
    else ERROR
  }

  /** A call at `message` gets past a minimum of `minimum` unless it ranks strictly lower. */
  predicate Passes(message: Level, minimum: Level)
  {
    !(message.Rank() < minimum.Rank())
  }

  lemma RankInjective(a: Level, b: Level)
    ensures a.Rank() == b.Rank() <==> a == b
  {
    assert LevelOfRank(a.Rank()) == a;
    assert LevelOfRank(b.Rank()) == b;
  }

  /** The filter is monotone: a level that passes, and any level above it, pass. */
  lemma PassesMonotone(a: Level, b: Level, minimum: Level)
    requires Passes(a, minimum) && a.Rank() <= b.Rank()
    ensures Passes(b, minimum)
  {
  }

  /** TRACE lets everything through; ERROR lets only ERROR through; each level passes its own minimum. */
  lemma PassesExtremes(l: Level)
    ensures Passes(l, TRACE) && Passes(l, l)
    ensures Passes(l, ERROR) <==> l == ERROR
  {
  }

  /** Distinct levels have names that already differ in their first letter. */
  lemma NameHeadsDistinct(a: Level, b: Level)
    requires a != b
    ensures a.Name()[0] != b.Name()[0]
  {
  }

  /** Integers that name no member of the write-mode enumeration. */
  type OtherCode = c: int | c < 0 || 2 < c witness -1

  /**
   * A write mode. The first three are the enumeration's members (codes 0, 1, 2);
   * `Unrecognised` stands for any other integer cast to the enumeration, which
   * is how the defensive branch of the dispatch switch is reached.
   */
  datatype WriteMode = CONSOLE | FILE | CONSOLE_AND_FILE | Unrecognised(code: OtherCode)
  {
    /** The integer value underlying the mode. */
    function Code(): int
    {
      match this
      case CONSOLE => 0
      case FILE => 1
      case CONSOLE_AND_FILE => 2
      case Unrecognised(c) => c
    }
  }

  /** The cast `(EnumWriteMode)c`. */
  function FromCode(c: int): (m: WriteMode)
    ensures m.Code() == c
    ensures m.Unrecognised? <==> (c < 0 || 2 < c)
  {
    if c == 0 then CONSOLE
    else if c == 1 then FILE
    else if c == 2 then CONSOLE_AND_FILE
    else Unrecognised(c)
  }

  /** Casting a mode's code back gives the mode: the cast and `Code` are inverse. */
  lemma CodeRoundTrip(m: WriteMode)
    ensures FromCode(m.Code()) == m
  {
  }
}
