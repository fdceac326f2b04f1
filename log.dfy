/** The `Log` object: the three formatting log methods and the registry of
    animated draft lines.

    The console is `screen`, its lines in order. `console.log` appends a line;
    `console.draft` appends a line and hands back a handle that rewrites that
    same line later, modelled as the line's index. A draft's entry keeps its
    handle, so the line a draft last painted is `screen[drafts[name].handle]`.

    The asynchronous `draft` and `endDraft` are split at their `await sleep(50)`
    points into steps that a caller may interleave: `Draft` (start), `Poll`
    (the loop's condition), `Repaint` (the loop body after its sleep), `Spin`
    (the loop itself, run for at most a given number of iterations),
    `StopSpinning` (the part of `endDraft` before its sleep) and `FinishDraft`
    (the part after it). */
module Logger {
  import opened Format
  import opened Spinner

  datatype Option<T> = None | Some(value: T)

  /** A draft's name: a string or a number; `"1"` and `1` are different keys. */
  datatype Name = Text(s: string) | Number(n: int)

  /** `{spinning, text, draft}`, with the draft handle as a screen line index. */
  datatype Entry = Entry(spinning: bool, text: string, handle: nat)

  class Log {
    const palette: Palette
    var drafts: map<Name, Entry>
    var screen: seq<string>

    /** Every live draft owns a line of the screen, and no two own the same. */
    ghost predicate Valid()
      reads this
    {
      && (forall n :: n in drafts ==> drafts[n].handle < |screen|)
      && (forall a, b :: a in drafts && b in drafts && a != b ==> drafts[a].handle != drafts[b].handle)
    }

    /** The line the draft `name` last painted. */
    function Painted(name: Name): string
      reads this
      requires Valid() && name in drafts
    {
      screen[drafts[name].handle]
    }

    /** `new Log()`: no drafts, nothing printed. */
    constructor (palette: Palette)
      ensures Valid()
      ensures this.palette == palette && drafts == map[] && screen == []
    {
      this.palette := palette;
      drafts := map[];
      screen := [];
    }

    /** Shared body of `error`, `warn` and `info`: the line is returned when
        `returnString` is set and printed as one new line otherwise. */
    method Write(sev: Severity, msg: string, date: string, returnString: bool) returns (r: Option<string>)
      requires Valid()
      modifies this
      ensures Valid() && drafts == old(drafts)
      ensures returnString ==> r == Some(FormatLine(sev, date, palette, msg)) && screen == old(screen)
      ensures !returnString ==> r == None && screen == old(screen) + [FormatLine(sev, date, palette, msg)]
    {
      var line := FormatLine(sev, date, palette, msg);
      if returnString {
        r := Some(line);
      } else {
        screen := screen + [line];
        r := None;
      }
    }

    /** `error(err, returnString)`: red, tagged ERROR. */
    method Error(err: string, date: string, returnString: bool) returns (r: Option<string>)
      requires Valid()
      modifies this
      ensures Valid() && drafts == old(drafts)
      ensures returnString ==> r == Some(FormatLine(Severity.Error, date, palette, err)) && screen == old(screen)
      ensures !returnString ==> r == None && screen == old(screen) + [FormatLine(Severity.Error, date, palette, err)]
    {
      r := Write(Severity.Error, err, date, returnString);
    }

    /** `warn(warning, returnString)`: yellow, tagged WARNING. */
    method Warn(warning: string, date: string, returnString: bool) returns (r: Option<string>)
      requires Valid()
      modifies this
      ensures Valid() && drafts == old(drafts)
      ensures returnString ==> r == Some(FormatLine(Warning, date, palette, warning)) && screen == old(screen)
      ensures !returnString ==> r == None && screen == old(screen) + [FormatLine(Warning, date, palette, warning)]
    {
      r := Write(Warning, warning, date, returnString);
    }

    /** `info(info, returnString = false)`: green, tagged INFO. */
    method Info(info: string, date: string, returnString: bool) returns (r: Option<string>)
      requires Valid()
      modifies this
      ensures Valid() && drafts == old(drafts)
      ensures returnString ==> r == Some(FormatLine(Severity.Info, date, palette, info)) && screen == old(screen)
      ensures !returnString ==> r == None && screen == old(screen) + [FormatLine(Severity.Info, date, palette, info)]
    {
      r := Write(Severity.Info, info, date, returnString);
    }

    /** The start of `draft(name, text)`. Without a terminal it prints one
        INFO line of `text` and registers nothing. On a terminal it paints
        frame 0 on a new line and registers a spinning entry for `name`,
        silently replacing an entry already registered under that name (its
        line is left as it was); every other entry stays as it was. */
    method Draft(name: Name, text: string, date: string, isTTY: bool)
      requires Valid()
      modifies this
      ensures Valid()
      ensures !isTTY ==> drafts == old(drafts) && screen == old(screen) + [FormatLine(Severity.Info, date, palette, text)]
      ensures isTTY ==> screen == old(screen) + [SpinLine(text, 0, date, palette)]
      ensures isTTY ==> drafts == old(drafts)[name := Entry(true, text, |old(screen)|)]
      ensures isTTY ==> Painted(name) == SpinLine(text, 0, date, palette)
    {
      if !isTTY {
        var _ := Info(text, date, false);
        return;
      }
      var first := Info(FrameAt(0) + " " + text, date, true);
      var handle := |screen|;
      screen := screen + [first.value];
      drafts := drafts[name := Entry(true, text, handle)];
    }

    /** The loop condition `this.drafts.get(name).spinning`; reading it for a
        name that is not registered is a fault in the source. */
    method Poll(name: Name) returns (spinning: bool)
      requires name in drafts
      ensures spinning <==> drafts[name].spinning
    {
      spinning := drafts[name].spinning;
    }

    /** The loop body after its sleep: repaint the draft's line with the
        glyph of iteration `i` and the `text` the loop was started with. It
        does not look at the spinning flag, and touches no other line. */
    method Repaint(name: Name, i: nat, text: string, date: string)
      requires Valid() && name in drafts
      modifies this
      ensures Valid() && drafts == old(drafts)
      ensures screen == old(screen)[drafts[name].handle := SpinLine(text, i, date, palette)]
      ensures Painted(name) == SpinLine(text, i, date, palette)
      ensures forall n :: n in drafts && n != name ==> Painted(n) == old(Painted(n))
    {
      var line := Info(FrameAt(i) + " " + text, date, true);
      screen := screen[drafts[name].handle := line.value];
    }

    /** The spin loop `for (let i = 0; drafts.get(name).spinning; i++)`,
        run for at most `fuel` iterations. Nothing else runs in between, so
        the loop makes `fuel` repaints when the draft is spinning and none
        otherwise; the line then shows the glyph of the last iteration. */
    method Spin(name: Name, text: string, date: string, fuel: nat) returns (ticks: nat)
      requires Valid() && name in drafts
      modifies this
      ensures Valid() && drafts == old(drafts)
      ensures ticks == if old(drafts[name].spinning) then fuel else 0
      ensures ticks == 0 ==> screen == old(screen)
      ensures ticks > 0 ==> screen == old(screen)[drafts[name].handle := SpinLine(text, ticks - 1, date, palette)]
    {
      var i: nat := 0;
      var spinning := Poll(name);
      while spinning && i < fuel
        invariant Valid() && drafts == old(drafts)
        invariant spinning == old(drafts[name].spinning)
        invariant i <= fuel && (!spinning ==> i == 0)
        invariant i == 0 ==> screen == old(screen)
        invariant i > 0 ==> screen == old(screen)[drafts[name].handle := SpinLine(text, i - 1, date, palette)]
        decreases fuel - i
      {
        Repaint(name, i, text, date);
        i := i + 1;
        spinning := Poll(name);
      }
      ticks := i;
    }

    /** `endDraft` up to its sleep: clear the entry's spinning flag. */
    method StopSpinning(name: Name)
      requires Valid() && name in drafts
      modifies this
      ensures Valid() && screen == old(screen)
      ensures drafts == old(drafts)[name := old(drafts[name]).(spinning := false)]
    {
      drafts := drafts[name := drafts[name].(spinning := false)];
    }

    /** `endDraft` after its sleep: paint the final line, INFO with ✔ on
        success and ERROR with ✖ on failure, and unregister `name`. No other
        entry and no other draft's line changes. */
    method FinishDraft(name: Name, text: string, succeed: bool, date: string)
      requires Valid() && name in drafts
      modifies this
      ensures Valid()
      ensures drafts == old(drafts) - {name}
      ensures screen == old(screen)[old(drafts[name].handle) := FinalLine(text, succeed, date, palette)]
      ensures forall n :: n in drafts ==> Painted(n) == old(Painted(n))
    {
      var line: Option<string>;
      if succeed {
        line := Info("✔ " + text, date, true);
      } else {
        line := Error("✖ " + text, date, true);
      }
      screen := screen[drafts[name].handle := line.value];
      drafts := drafts - {name};
    }

    /** `endDraft(name, text, succeed)`: the flag is cleared first, then the
        final line painted, then `name` unregistered. `name` must be
        registered: the source faults otherwise. */
    method EndDraft(name: Name, text: string, succeed: bool, date: string)
      requires Valid() && name in drafts
      modifies this
      ensures Valid()
      ensures name !in drafts && drafts == old(drafts) - {name}
      ensures screen == old(screen)[old(drafts[name].handle) := FinalLine(text, succeed, date, palette)]
      ensures forall n :: n in drafts ==> drafts[n] == old(drafts[n]) && Painted(n) == old(Painted(n))
    {
      StopSpinning(name);
      FinishDraft(name, text, succeed, date);
    }
  }

  /** The shared `Log` instance the module exports: an empty registry. */
  method Instance(palette: Palette) returns (log: Log)
    ensures fresh(log) && log.Valid()
    ensures log.palette == palette && log.drafts == map[] && log.screen == []
  {
    log := new Log(palette);
  }
}
