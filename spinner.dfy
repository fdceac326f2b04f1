/** The spinner animation of a draft line: ten braille glyphs cycled by the
    loop counter, and the lines the draft loop and `endDraft` paint. */
module Spinner {
  import opened Format

  const Frames: seq<string> := ["⠋", "⠙", "⠹", "⠸", "⠼", "⠴", "⠦", "⠧", "⠇", "⠏"]

  /** `frames[i % frames.length]`: the glyph painted on loop iteration `i`. */
  function FrameAt(i: nat): (f: string)
    ensures f in Frames && |f| == 1
    ensures f == Frames[i % 10]
  {
    Frames[i % |Frames|]
  }

  /** `info(frames[i % 10] + " " + text, true)`: the line painted for
      iteration `i` of a draft loop started with `text`. */
  function SpinLine(text: string, i: nat, date: string, p: Palette): string
  {
    FormatLine(Info, date, p, FrameAt(i) + " " + text)
  }

  /** The last line of a draft: `info("✔ " + text)` on success and
      `error("✖ " + text)` on failure. */
  function FinalLine(text: string, succeed: bool, date: string, p: Palette): string
  {
    if succeed then FormatLine(Info, date, p, "✔ " + text)
    else FormatLine(Error, date, p, "✖ " + text)
  }

  /** The ten glyphs are pairwise different. */
  lemma FramesDistinct(a: nat, b: nat)
    requires a < 10 && b < 10 && a != b
    ensures Frames[a] != Frames[b]
  {
    assert Frames[a][0] != Frames[b][0];
  }

  /** The animation is exactly ten-periodic: two iterations paint the same
      glyph if and only if their counters agree modulo ten. */
  lemma FrameCycle(i: nat, j: nat)
    ensures FrameAt(i) == FrameAt(j) <==> i % 10 == j % 10
  {
    if i % 10 != j % 10 {
      FramesDistinct(i % 10, j % 10);
    }
  }

  /** Iteration `i + 1` paints the glyph after the one iteration `i` painted,
      wrapping from the last glyph back to the first. */
  lemma FrameSuccessor(i: nat)
    ensures FrameAt(i + 1) == Frames[(i % 10 + 1) % 10]
  {
    assert (i + 1) % 10 == (i % 10 + 1) % 10;
  }

  /** A successful final line can never be mistaken for a spinner frame of the
      same text: its glyph is neither of the ten frames. */
  lemma FinalLineIsNoFrame(text: string, i: nat, date: string, p: Palette)
    ensures FinalLine(text, true, date, p) != SpinLine(text, i, date, p)
  {
    var m1, m2 := "✔ " + text, FrameAt(i) + " " + text;
    FormatLineInjective(Info, date, p, m1, m2);
    assert m1[0] != m2[0];
  }
}
