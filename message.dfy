/**
 * The log message of message.go: three text fields, their join into one
 * line, and the fitting of the body to a display width with a trim marker.
 *
 * Display width (lipgloss.Width) belongs to a styling library; it is a
 * parameter `measure` here. `Runes` is the measure of unstyled text.
 */
module Message {
  import opened Strings

  /** One log record: timestamp, level prefix and body. */
  datatype Msg = Msg(timeStamp: string, prefix: string, text: string)

  /** 1 when `s` contributes a separating blank to the joined line, else 0. */
  function Sep(s: string): nat
  {
    if s != "" then 1 else 0
  }

  /** The display width of unstyled text: one cell per rune. */
  function Runes(s: string): nat
  {
    |s|
  }

  function Max(a: int, b: int): int
  {
    if a > b then a else b
  }

  /**
   * `msg.String`: timestamp, prefix and body in this order; each non-empty
   * timestamp or prefix is followed by exactly one blank, an empty one adds
   * nothing.
   */
  function Join(m: Msg): (r: string)
    ensures |r| == |m.timeStamp| + Sep(m.timeStamp) + |m.prefix| + Sep(m.prefix) + |m.text|
    ensures r[|r| - |m.text|..] == m.text
    ensures m.timeStamp != "" ==> r[..|m.timeStamp| + 1] == m.timeStamp + " "
    ensures m.prefix != "" ==>
              var at := |m.timeStamp| + Sep(m.timeStamp);
              r[at..at + |m.prefix| + 1] == m.prefix + " "
    ensures m.timeStamp == "" && m.prefix == "" ==> r == m.text
  {
    var withTimeStamp := if m.timeStamp != "" then m.timeStamp + " " else "";
    var withPrefix := withTimeStamp + (if m.prefix != "" then m.prefix + " " else "");
    assert (withPrefix + m.text)[..|withPrefix|] == withPrefix;
    withPrefix + m.text
  }

  /**
   * The budget `fit` computes: the width left after timestamp, prefix, body
   * and the one blank after a non-empty timestamp. The blank after the
   * prefix is not counted, so on unstyled text the budget is one cell more
   * than the room left by the joined line whenever there is a prefix.
   */
  function SpaceLeft(m: Msg, width: int, measure: string -> nat): (r: int)
    ensures r >= 0 <==> measure(m.timeStamp) + Sep(m.timeStamp) + measure(m.prefix) + measure(m.text) <= width
    ensures measure == Runes ==> r == width - |Join(m)| + Sep(m.prefix)
  {
    var spaceCount := if m.timeStamp != "" then 1 else 0;
    width - measure(m.timeStamp) - measure(m.prefix) - measure(m.text) - spaceCount
  }

  /**
   * How many leading runes of the body survive trimming; the marker's
   * length is taken in bytes, as Go's `len` does.
   */
  function KeptRunes(m: Msg, width: int, trimMarker: string, measure: string -> nat): (k: int)
    ensures k >= 0
    ensures SpaceLeft(m, width, measure) < 0 ==> k <= |m.text|
    ensures SpaceLeft(m, width, measure) < 0 && m.text != "" ==> k < |m.text|
  {
    Max(|m.text| + SpaceLeft(m, width, measure) - ByteLen(trimMarker), 0)
  }

  /**
   * `msg.fit`: when the line does not fit `width`, the body keeps its first
   * `KeptRunes` runes and gets the trim marker; otherwise nothing changes.
   * Timestamp and prefix are never touched.
   */
  function Fit(m: Msg, width: int, trimMarker: string, measure: string -> nat): (r: Msg)
    ensures r.timeStamp == m.timeStamp && r.prefix == m.prefix
    ensures SpaceLeft(m, width, measure) >= 0 ==> r == m
    ensures SpaceLeft(m, width, measure) < 0 ==>
              var k := KeptRunes(m, width, trimMarker, measure);
              && |r.text| == k + |trimMarker|
              && r.text[..k] == m.text[..k]
              && r.text[k..] == trimMarker
    ensures && SpaceLeft(m, width, measure) < 0
            && |m.text| + SpaceLeft(m, width, measure) <= ByteLen(trimMarker)
            ==> r.text == trimMarker
  {
    var spaceLeft := SpaceLeft(m, width, measure);
    if spaceLeft >= 0 then m
    else
      var maxMessageWidth := Max(|m.text| + spaceLeft - ByteLen(trimMarker), 0);
      var text := m.text[..maxMessageWidth] + trimMarker;
      assert text[..maxMessageWidth] == m.text[..maxMessageWidth];
      m.(text := text)
  }

  /** On unstyled text, a message whose joined line fits is left alone. */
  lemma FitNoOpWhenLineFits(m: Msg, width: int, trimMarker: string)
    requires |Join(m)| <= width
    ensures Fit(m, width, trimMarker, Runes) == m
  {
  }

  /**
   * On unstyled text, a trimmed message that keeps part of its body has a
   * joined line at most one cell wider than `width`, the one cell being the
   * uncounted blank after a prefix; with an ASCII marker the bound is exact.
   */
  lemma {:induction false} FitTrimmedLineWidth(m: Msg, width: int, trimMarker: string)
    requires SpaceLeft(m, width, Runes) < 0
    requires KeptRunes(m, width, trimMarker, Runes) > 0
    ensures |Join(Fit(m, width, trimMarker, Runes))| <= width + Sep(m.prefix)
    ensures IsAscii(trimMarker) ==> |Join(Fit(m, width, trimMarker, Runes))| == width + Sep(m.prefix)
  {
    ByteLenAtLeastRunes(trimMarker);
    ByteLenIsRunesIffAscii(trimMarker);
  }

  /** A body of 16 runes fitted to 10 cells keeps 7 runes and the marker. */
  lemma FitExampleKeepsSeven()
    ensures Fit(Msg("", "", "0123456789ABCDEF"), 10, "...", Runes) == Msg("", "", "0123456...")
  {
  }

  /** When the overflow eats the whole body, only the marker is left. */
  lemma FitExampleOnlyMarker()
    ensures Fit(Msg("12:00:00", "", "abc"), 5, "...", Runes) == Msg("12:00:00", "", "...")
  {
  }
}
