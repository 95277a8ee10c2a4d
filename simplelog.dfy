/**
 * The emit engine of simplelog.go: the level-to-symbol table, the generic
 * `min`, and the Logger whose `clearAfterProgress`, `p` and `Progressf`
 * write lines and keep the width of the last progress line, so that a
 * later shorter or ordinary line blanks out what a progress line left.
 *
 * What the surroundings supply is passed in: the current time already
 * formatted (`clock`), the terminal's column count (`termWidth`, the value
 * `GetWidth` returns), the display width of a string (`measure`, the
 * styling library's `Width`), and the styles as rendering functions.
 * The writer is the ghost sequence `written`, one entry per write call; it
 * only grows.
 */
module Simplelog {
  import opened Strings
  import opened Message

  /** Go's `type LogLevel int`: any 64-bit value, seven of them named. */
  newtype LogLevel = x: int | -0x8000_0000_0000_0000 <= x < 0x8000_0000_0000_0000

  const Progress: LogLevel := 0
  const Trace: LogLevel := 1
  const Debug: LogLevel := 2
  const Info: LogLevel := 3
  const Warning: LogLevel := 4
  const Error: LogLevel := 5
  const Fatal: LogLevel := 6

  const FileTimeStampFormat := "2006-01-02 15:04:05"
  const TerminalTimeStampFormat := "15:04:05"

  /** A display style, seen through what it does: render a string. */
  type Style = string -> string

  /** `min`: the smaller of two values. */
  function Min(a: int, b: int): (r: int)
    ensures r <= a && r <= b
    ensures r == a || r == b
  {
    if a < b then a else b
  }

  /** The six levels that have a symbol of their own. */
  predicate HasSymbol(level: LogLevel)
  {
    Trace <= level <= Fatal
  }

  /** `levelSymbol`: a 3-letter code per level, "???" for all others. */
  function LevelSymbol(level: LogLevel): (r: string)
    ensures |r| == 3
    ensures r == "???" <==> !HasSymbol(level)
  {
    if level == Trace then "TRC"
    else if level == Debug then "DBG"
    else if level == Info then "INF"
    else if level == Warning then "WRN"
    else if level == Error then "ERR"
    else if level == Fatal then "FTL"
    else "???"
  }

  /** Distinct levels that have a symbol get distinct symbols. */
  lemma LevelSymbolInjective(a: LogLevel, b: LogLevel)
    requires HasSymbol(a) && HasSymbol(b) && a != b
    ensures LevelSymbol(a) != LevelSymbol(b)
  {
  }

  /** Logger.prefix: the level symbol between bars, as file lines show it. */
  function LevelPrefix(level: LogLevel): (r: string)
    ensures |r| == 5
    ensures r[0] == '|' && r[4] == '|'
    ensures r[1..4] == LevelSymbol(level)
  {
    "|" + LevelSymbol(level) + "|"
  }

  /** The Logger fields that decide how a line looks. */
  datatype Config = Config(
    isTerminal: bool,
    stripMessages: bool,
    timeFormat: string,
    timeStampStyle: Style,
    styles: LogLevel -> Style)

  /**
   * Logger.timestamp: empty when timestamps are disabled, the formatted
   * time on a file, the styled formatted time on a terminal.
   */
  function TimeStampText(c: Config, clock: string): (r: string)
    ensures c.timeFormat == "" ==> r == ""
    ensures !c.isTerminal && c.timeFormat != "" ==> r == clock
    ensures c.isTerminal && c.timeFormat != "" ==> r == c.timeStampStyle(clock)
  {
    if c.timeFormat == "" then ""
    else if !c.isTerminal then clock
    else c.timeStampStyle(clock)
  }

  /** The line ending `p` appends: carriage return for progress, else newline. */
  function Terminator(level: LogLevel): string
  {
    if level == Progress then "\r" else "\n"
  }

  /** The body after optional whitespace stripping. */
  function Body(c: Config, text: string): string
  {
    if c.stripMessages then TrimSpace(text) else text
  }

  /**
   * The message `p` builds before joining it: on a file the raw timestamp,
   * the bracketed level and the plain body; on a terminal no prefix, the
   * timestamp text styled once more and the styled body; the terminator last.
   */
  function LineMsg(c: Config, level: LogLevel, text: string, clock: string): (r: Msg)
    ensures r.prefix == if c.isTerminal then "" else LevelPrefix(level)
    ensures !c.isTerminal ==>
              && r.timeStamp == (if c.timeFormat == "" then "" else clock)
              && r.text == Body(c, text) + Terminator(level)
    ensures c.isTerminal ==>
              && r.timeStamp == c.timeStampStyle(if c.timeFormat == "" then "" else c.timeStampStyle(clock))
              && r.text == c.styles(level)(Body(c, text)) + Terminator(level)
  {
    var ts := TimeStampText(c, clock);
    if c.isTerminal then
      Msg(c.timeStampStyle(ts), "", c.styles(level)(Body(c, text)) + Terminator(level))
    else
      Msg(ts, LevelPrefix(level), Body(c, text) + Terminator(level))
  }

  /** The line `p` writes for `text` at `level`. */
  function Line(c: Config, level: LogLevel, text: string, clock: string): string
  {
    Join(LineMsg(c, level, text, clock))
  }

  /** Whether `clearAfterProgress` blanks the previous progress line. */
  predicate ClearNeeded(isTerminal: bool, last: nat, nextLevel: LogLevel, nextWidth: nat)
  {
    !(!isTerminal || last == 0 || (nextLevel == Progress && nextWidth >= last))
  }

  /**
   * What `clearAfterProgress` writes: nothing, or one chunk of
   * `min(termWidth, last)` blanks and a carriage return.
   */
  function ClearChunks(isTerminal: bool, last: nat, nextLevel: LogLevel, nextWidth: nat, termWidth: nat)
    : (r: seq<string>)
    ensures r == [] <==> !isTerminal || last == 0 || (nextLevel == Progress && nextWidth >= last)
    ensures r != [] ==>
              && |r| == 1
              && |r[0]| == Min(termWidth, last) + 1
              && AllBlank(r[0][..|r[0]| - 1])
              && r[0][|r[0]| - 1] == '\r'
  {
    if ClearNeeded(isTerminal, last, nextLevel, nextWidth) then
      var chunk := Blank(Min(termWidth, last)) + "\r";
      assert chunk[..|chunk| - 1] == Blank(Min(termWidth, last));
      [chunk]
    else []
  }

  /**
   * The progress-line width after `p` has emitted a line of `width` cells,
   * a one-integer state machine: a progress line records its width; on a
   * terminal every other line leaves 0; on a file other lines change nothing.
   */
  function WidthAfter(isTerminal: bool, last: nat, level: LogLevel, width: nat): (r: nat)
    ensures level == Progress ==> r == width
    ensures level != Progress && isTerminal ==> r == 0
    ensures level != Progress && !isTerminal ==> r == last
    ensures isTerminal && r != 0 ==> level == Progress
  {
    if level == Progress then width
    else if ClearNeeded(isTerminal, last, level, width) then 0
    else last
  }

  /** Every line ends with its terminator: '\r' for progress, '\n' otherwise. */
  lemma LineTerminator(c: Config, level: LogLevel, text: string, clock: string)
    ensures var line := Line(c, level, text, clock);
            |line| > 0 && line[|line| - 1] == (if level == Progress then '\r' else '\n')
  {
  }

  /**
   * On a file: the raw timestamp (if any) and a blank, the bracketed level
   * symbol and a blank, the body unstyled, the terminator.
   */
  lemma FileLine(c: Config, level: LogLevel, text: string, clock: string)
    requires !c.isTerminal
    ensures var ts := if c.timeFormat == "" then "" else clock;
            var body := if c.stripMessages then TrimSpace(text) else text;
            Line(c, level, text, clock) ==
              (if ts != "" then ts + " " else "") + LevelPrefix(level) + " " + body + Terminator(level)
  {
  }

  /**
   * On a terminal: no level prefix; the styled timestamp (and a blank when
   * it is not empty) before the styled body and the terminator.
   */
  lemma TerminalLine(c: Config, level: LogLevel, text: string, clock: string)
    requires c.isTerminal
    ensures var ts := c.timeStampStyle(if c.timeFormat == "" then "" else c.timeStampStyle(clock));
            var body := c.styles(level)(if c.stripMessages then TrimSpace(text) else text);
            Line(c, level, text, clock) == (if ts != "" then ts + " " else "") + body + Terminator(level)
  {
  }

  /**
   * A progress line followed by a shorter line, or by any ordinary line, on
   * a terminal: the second emission blanks `min(termWidth, w)` cells once,
   * and after an ordinary line no further emission blanks anything.
   */
  lemma OverwriteOnce(w: nat, level: LogLevel, next: nat, termWidth: nat)
    requires w > 0
    requires level != Progress || next < w
    ensures var last := WidthAfter(true, 0, Progress, w);
            && last == w
            && ClearChunks(true, last, level, next, termWidth) == [Blank(Min(termWidth, w)) + "\r"]
            && (level != Progress ==> WidthAfter(true, last, level, next) == 0)
            && (level != Progress ==>
                  forall l, n :: ClearChunks(true, WidthAfter(true, last, level, next), l, n, termWidth) == [])
  {
  }

  /** A progress line of width 20, then an ordinary line of width 5, on a terminal of 20 columns or more. */
  lemma ProgressThenInfoExample(termWidth: nat)
    requires termWidth >= 20
    ensures ClearChunks(true, WidthAfter(true, 0, Progress, 20), Info, 5, termWidth) == [Blank(20) + "\r"]
    ensures WidthAfter(true, 20, Info, 5) == 0
  {
  }

  class Logger {
    var isTerminal: bool
    var stripMessages: bool
    var timeFormat: string
    var timeStampStyle: Style
    var styles: LogLevel -> Style
    var lastProgressLineWidth: nat
    ghost var written: seq<string>

    /** The fields that shape a line; the progress width and the writer are not among them. */
    function CurrentConfig(): Config
      reads this`isTerminal, this`stripMessages, this`timeFormat, this`timeStampStyle, this`styles
    {
      Config(isTerminal, stripMessages, timeFormat, timeStampStyle, styles)
    }

    /**
     * NewLogger, with the terminal test done by the caller: a terminal gets
     * the short time format, a file the long one; nothing is written yet.
     */
    constructor (isTerminal: bool, timeStampStyle: Style, styles: LogLevel -> Style)
      ensures this.isTerminal == isTerminal && !stripMessages
      ensures this.timeStampStyle == timeStampStyle && this.styles == styles
      ensures timeFormat == if isTerminal then TerminalTimeStampFormat else FileTimeStampFormat
      ensures lastProgressLineWidth == 0 && written == []
    {
      this.isTerminal := isTerminal;
      this.stripMessages := false;
      this.timeStampStyle := timeStampStyle;
      this.styles := styles;
      this.lastProgressLineWidth := 0;
      this.written := [];
      if isTerminal {
        timeFormat := TerminalTimeStampFormat;
      } else {
        timeFormat := FileTimeStampFormat;
      }
    }

    /**
     * clearAfterProgress: on a terminal, after a progress line, unless the
     * next line is a progress line at least as wide, write the blank-out
     * chunk and forget the progress width.
     */
    method ClearAfterProgress(nextLevel: LogLevel, nextWidth: nat, termWidth: nat)
      modifies this`lastProgressLineWidth, this`written
      ensures written == old(written) + ClearChunks(isTerminal, old(lastProgressLineWidth), nextLevel, nextWidth, termWidth)
      ensures lastProgressLineWidth ==
                if ClearNeeded(isTerminal, old(lastProgressLineWidth), nextLevel, nextWidth) then 0
                else old(lastProgressLineWidth)
    {
      if !isTerminal || lastProgressLineWidth == 0 || (nextLevel == Progress && nextWidth >= lastProgressLineWidth) {
        return;
      }
      written := written + [Blank(Min(termWidth, lastProgressLineWidth)) + "\r"];
      lastProgressLineWidth := 0;
    }

    /**
     * The emit routine `p`: build the message, strip and style or prefix it,
     * terminate it, measure it, clear after a progress line, record the
     * width of a progress line and write the line once. Returns the number
     * of bytes written.
     */
    method Emit(level: LogLevel, text: string, clock: string, termWidth: nat, measure: string -> nat)
      returns (n: nat)
      modifies this`lastProgressLineWidth, this`written
      ensures var line := Line(CurrentConfig(), level, text, clock);
              && written == old(written) +
                   ClearChunks(isTerminal, old(lastProgressLineWidth), level, measure(line), termWidth) + [line]
              && lastProgressLineWidth == WidthAfter(isTerminal, old(lastProgressLineWidth), level, measure(line))
              && n == ByteLen(line)
    {
      var m := Msg(TimeStampText(CurrentConfig(), clock), "", text);
      if stripMessages {
        m := m.(text := TrimSpace(m.text));
      }
      if isTerminal {
        m := m.(timeStamp := timeStampStyle(m.timeStamp));
        m := m.(text := styles(level)(m.text));
      } else {
        m := m.(prefix := LevelPrefix(level));
      }
      if level == Progress {
        m := m.(text := m.text + "\r");
      } else {
        m := m.(text := m.text + "\n");
      }
      var str := Join(m);
      var w := measure(str);
      ClearAfterProgress(level, w, termWidth);
      if level == Progress {
        lastProgressLineWidth := w;
      }
      written := written + [str];
      n := ByteLen(str);
    }

    /** Progressf: a progress line on a terminal; on a file nothing at all. */
    method Progressf(text: string, clock: string, termWidth: nat, measure: string -> nat)
      returns (n: nat)
      modifies this`lastProgressLineWidth, this`written
      ensures !isTerminal ==> n == 0 && written == old(written) && lastProgressLineWidth == old(lastProgressLineWidth)
      ensures isTerminal ==>
                var line := Line(CurrentConfig(), Progress, text, clock);
                && written == old(written) +
                     ClearChunks(true, old(lastProgressLineWidth), Progress, measure(line), termWidth) + [line]
                && lastProgressLineWidth == measure(line)
                && n == ByteLen(line)
    {
      if !isTerminal {
        return 0;
      }
      n := Emit(Progress, text, clock, termWidth, measure);
    }
  }
}
