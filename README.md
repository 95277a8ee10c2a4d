# simplelog message rendering and progress overwrite, in Dafny

This project models the core of simplelog, a small Go logging helper. The
model covers three parts:

- The log message (`message.go`). It has three fields: timestamp, prefix and
  text. It can be joined into one line, and its text can be fitted to a
  display width with a trim marker.
- The level table (`simplelog.go`). Each level has a three-letter symbol,
  and file lines carry the bracketed prefix `|SYM|`.
- The emit engine of the `Logger` (`simplelog.go`):
  - `clearAfterProgress` blanks out a progress line once a shorter or an
    ordinary line follows it;
  - `p` builds, terminates, measures and writes a line, and records the width
    of a progress line;
  - `Progressf` emits progress lines only on a terminal.

Modules:

- `Strings` (`strings.dfy`): the Go library behaviour the core relies on.
  That is the UTF-8 byte length `len`, `strings.Repeat(" ", n)`, and
  `strings.TrimSpace` with `unicode.IsSpace`.
- `Message` (`message.dfy`): the `msg` record, `String` (as `Join`) and
  `fit` (as `Fit`).
- `Simplelog` (`simplelog.dfy`): the level constants, `min`,
  `levelSymbol`, `prefix`, the pure description of the line `p` writes, and
  the class `Logger`. Its fields are `isTerminal`, `stripMessages`,
  `timeFormat`, the styles and `lastProgressLineWidth`. The writer is a
  ghost sequence of written chunks, one chunk per write call.

Things the process supplies are parameters:

- `clock` is the current time, already formatted.
- `termWidth` is what `GetWidth` returns.
- `measure` is the styling library's display width.
- A style is a rendering function `string -> string`.

`simplelog.go` repeats `msg.String` at lines 67-89, identical to
`message.go`; both are modelled by `Message.Join`.

Behaviour of the code worth noting:

- `p` never calls `fit`, so terminal lines are not width-fitted.
- There is no rate limiting of progress lines and no minimum-level filter.
- The blank-out is a separate chunk of `min(termWidth, previous)` blanks and
  a carriage return, written before the new line (`ProgressThenInfoExample`).
- `fit` on the 16-rune body `"0123456789ABCDEF"` at width 10 with marker
  `"..."` keeps 7 runes and yields `"0123456..."` (`FitExampleKeepsSeven`).

## Model

| member | source | states |
|---|---|---|
| `Strings.ByteLenAtLeastRunes` | message.go:48 | the byte length `len` of a string is never below its rune count |
| `Strings.ByteLenIsRunesIffAscii` | message.go:48 | bytes and runes agree exactly when the string is ASCII (both directions), so `len(trimMarker)` counts runes only for an ASCII marker |
| `Strings.Blank` | simplelog.go:208 | `strings.Repeat(" ", n)` has length n and every character a blank |
| `Strings.TrimSpace` | simplelog.go:257-259 | the trimmed text is the slice of the input after the leading white space; all of the input after it is white space; it neither starts nor ends with white space; it is empty exactly when the input is all white space |
| `Strings.TrimSpaceIdempotent` | simplelog.go:257-259 | trimming an already trimmed text changes nothing |
| `Message.Join` | message.go:17-33 | line length is the three field lengths plus one per non-empty timestamp and prefix; the text is a suffix; a non-empty timestamp is followed by exactly one blank, and so is a non-empty prefix at its position; with both empty the line is the text |
| `Message.SpaceLeft` | message.go:38-43 | the budget is not negative exactly when timestamp, its blank, prefix and text fit the width; on unstyled text it is the room left by the joined line plus the uncounted blank after a prefix |
| `Message.KeptRunes` | message.go:48 | when the line overflows, the kept rune count is at least 0, at most the text length, and strictly below it for a non-empty text, so the slice is always in range |
| `Message.Fit` | message.go:37-51 | timestamp and prefix never change; no change when the budget is not negative; otherwise the text is its first `KeptRunes` runes followed by the trim marker; on a heavy overflow the text is exactly the marker |
| `Message.FitNoOpWhenLineFits` | message.go:38-46 | on unstyled text, a message whose joined line is no wider than the target is left unchanged |
| `Message.FitTrimmedLineWidth` | message.go:43-50 | on unstyled text, after a trim that keeps some of the text, the joined line is at most the target width plus the uncounted blank after a prefix, and exactly that for an ASCII marker |
| `Message.FitExampleKeepsSeven` | message.go:48-50 | a 16-rune text fitted to 10 cells with "..." becomes "0123456..." |
| `Message.FitExampleOnlyMarker` | message.go:48-50 | with timestamp "12:00:00", text "abc" and width 5 the text becomes exactly "..." |
| `Simplelog.Min` | simplelog.go:118-123 | the result is at most both arguments and equal to one of them |
| `Simplelog.LevelSymbol` | simplelog.go:125-142 | always three characters; "???" exactly for levels outside Trace..Fatal (Progress included) |
| `Simplelog.LevelSymbolInjective` | simplelog.go:125-142 | different named levels get different symbols |
| `Simplelog.TimeStampText` | simplelog.go:212-222 | empty when the time format is empty; the formatted time on a file; the formatted time rendered with the timestamp style on a terminal |
| `Simplelog.LevelPrefix` | simplelog.go:224-226 | five characters: a bar, the level symbol, a bar |
| `Simplelog.ClearChunks` | simplelog.go:203-209 | nothing is written exactly when the sink is not a terminal, no progress width is recorded, or the next line is progress and at least as wide; otherwise one chunk of `min(termWidth, last)` blanks and a carriage return |
| `Simplelog.LineMsg` | simplelog.go:252-272 | on a file: the raw timestamp (empty when timestamps are off), the bracketed level prefix, the plain (optionally trimmed) body and the terminator; on a terminal: no prefix, the timestamp text styled a second time, the styled body and the terminator |
| `Simplelog.WidthAfter` | simplelog.go:276-280 | a progress line records its width; on a terminal any other line leaves 0; on a file any other line keeps the width; on a terminal a non-zero width after an emit means it was a progress line |
| `Simplelog.LineTerminator` | simplelog.go:268-272 | every line ends with a carriage return for Progress and a newline for every other level |
| `Simplelog.FileLine` | simplelog.go:252-274 | on a file: the raw timestamp and a blank (if timestamps are on), the bracketed symbol and a blank, the unstyled (optionally trimmed) text, the terminator |
| `Simplelog.TerminalLine` | simplelog.go:252-274 | on a terminal: no level prefix; the timestamp text rendered twice with the timestamp style (an empty one once) and a blank if the result is non-empty, then the styled (optionally trimmed) text and the terminator |
| `Simplelog.OverwriteOnce` | simplelog.go:203-209 | after a progress line of width w on a terminal, a narrower progress line or any ordinary line is preceded by `min(termWidth, w)` blanks and a carriage return; after an ordinary line no following emit clears, whatever its level and width |
| `Simplelog.ProgressThenInfoExample` | simplelog.go:203-209 | progress width 20, then an Info line of width 5 on a terminal of at least 20 columns: 20 blanks and a carriage return are written first, and the width returns to 0 |
| `Simplelog.Logger.constructor` | simplelog.go:91-116 | a new logger remembers whether its sink is a terminal and its styles; it gets the short time format on a terminal and the long one on a file; no progress width; nothing written |
| `Simplelog.Logger.ClearAfterProgress` | simplelog.go:203-210 | appends exactly `ClearChunks` to the writer and resets the progress width to 0 exactly when a chunk was written; changes nothing else |
| `Simplelog.Logger.Emit` | simplelog.go:248-283 | appends the clear chunk (if any) and then the line, exactly once and in this order; the progress width becomes `WidthAfter` of the measured line; returns the line's byte count |
| `Simplelog.Logger.Progressf` | simplelog.go:232-238 | on a file returns 0 and changes nothing; on a terminal emits a Progress line and records its width |

## Left out

- Styling and display width (lipgloss `Render`, `Width`) come from a foreign library. Styles are rendering functions and width is the `measure` parameter. `Message.Runes`, one cell per rune, is used where unstyled text is meant.
- The styles map is a total function from level to style. A Go map read of a missing key yields the zero style; that style's rendering is not modelled.
- Time formatting (`time.Now().Format`) is outside the model: the formatted time is the `clock` parameter.
- `GetWidth`, `term.GetSize`, `term.IsTerminal` and the `*os.File` check in `NewLogger` are OS calls. The terminal width is a parameter and the terminal test is a constructor argument.
- The mutex is concurrency and is left out. That includes `Fatal` locking and then calling `Print`, which locks again.
- `Fatal`, `Fatalf` and `Fatalln` end the process, and `os.Exit` is not modelled.
- `fmt.Sprint`/`Sprintf` argument formatting and the thin wrappers (`Print`, `Printf`, `Println`, `Info`, `Infof`, `Warnf`, `Errorf`, `Infoln`) are glue. `Emit` and `Progressf` take the text already formatted.
- Simplelog.Logger.Emit: does not model write errors; it returns the byte count of the line, the count a successful `Writer.Write` reports. The error from the blank-out `Fprint`, which the source ignores, is not modelled either.
- Message.Fit: texts are taken to be valid UTF-8. Dafny strings are sequences of Unicode scalar values, so Go's conversion of invalid bytes to U+FFFD in `[]rune(text)` is not modelled, and neither is the byte count (`Strings.ByteLen`) of such bytes.
- The `LogLevel` ordering in `consts.go` (Progress = 9) is a plain constant set with no behaviour. `p` never compares levels, so the model uses the `simplelog.go` values.
