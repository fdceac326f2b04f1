/** Whole draft lifecycles on a fresh `Log`, with the interleavings of the
    spin loop and `endDraft` written out step by step. */
module Scenarios {
  import opened Format
  import opened Spinner
  import opened Logger

  /** On a terminal: `draft("build", "building")` and two loop iterations;
      the loop then passes its check a third time and sleeps, and
      `endDraft("build", text, succeed)` lowers the flag meanwhile. The loop
      wakes first, makes its third repaint, sees the flag down at its next
      check and stops; the final paint comes last, so the only line on screen
      is the final one and "build" is gone. */
  method BuildLifecycle(text: string, succeed: bool, date: string, palette: Palette)
    returns (lines: seq<string>, ticks: nat, loopContinues: bool, registered: bool)
    ensures ticks == 3 && !loopContinues && !registered
    ensures lines == [FinalLine(text, succeed, date, palette)]
    ensures succeed ==> lines[0] == FormatLine(Info, date, palette, "✔ " + text)
    ensures !succeed ==> lines[0] == FormatLine(Severity.Error, date, palette, "✖ " + text)
  {
    var log := new Log(palette);
    var build := Name.Text("build");
    log.Draft(build, "building", date, true);
    ticks := log.Spin(build, "building", date, 2);
    log.StopSpinning(build);
    log.Repaint(build, ticks, "building", date);
    ticks := ticks + 1;
    loopContinues := log.Poll(build);
    log.FinishDraft(build, text, succeed, date);
    lines := log.screen;
    registered := build in log.drafts;
  }

  /** The race the two equal sleeps settle: the loop has passed its check and
      is asleep when `endDraft` clears the flag. The loop's repaint lands
      first, its next check stops it, and the final paint comes last. */
  method InFlightRepaint(name: Name, text: string, done: string, date: string, palette: Palette)
    returns (lines: seq<string>, firstCheck: bool, repainted: string, loopContinues: bool, registered: bool)
    ensures firstCheck && repainted == SpinLine(text, 0, date, palette)
    ensures !loopContinues && !registered
    ensures lines == [FinalLine(done, true, date, palette)]
  {
    var log := new Log(palette);
    log.Draft(name, text, date, true);
    firstCheck := log.Poll(name);
    log.StopSpinning(name);
    log.Repaint(name, 0, text, date);
    repainted := log.Painted(name);
    loopContinues := log.Poll(name);
    log.FinishDraft(name, done, true, date);
    lines := log.screen;
    registered := name in log.drafts;
  }

  /** Without a terminal `draft` prints a single INFO line of its text and
      registers nothing, so there is no loop to run. A later `endDraft` for
      the same name would fault, as nothing is registered under it; the
      precondition of `Log.EndDraft` rules that call out. */
  method NonInteractiveDraft(name: Name, text: string, date: string, palette: Palette)
    returns (lines: seq<string>, registered: bool)
    ensures lines == [FormatLine(Info, date, palette, text)]
    ensures !registered
  {
    var log := new Log(palette);
    log.Draft(name, text, date, false);
    lines := log.screen;
    registered := name in log.drafts;
  }

  /** Starting a second draft under a live name replaces the entry: the first
      line keeps frame 0 for good, and the first draft's loop, which still
      looks its entry up by name, repaints the second draft's line with its
      own old text. */
  method DuplicateName(name: Name, first: string, second: string, date: string, palette: Palette)
    returns (lines: seq<string>, entry: Entry, liveDrafts: nat)
    ensures liveDrafts == 1 && entry == Entry(true, second, 1)
    ensures lines == [SpinLine(first, 0, date, palette), SpinLine(first, 3, date, palette)]
  {
    var log := new Log(palette);
    log.Draft(name, first, date, true);
    log.Draft(name, second, date, true);
    entry := log.drafts[name];
    liveDrafts := |log.drafts.Keys|;
    log.Repaint(name, 3, first, date);
    lines := log.screen;
  }

  /** Ending one of two live drafts leaves the other's entry and line as they
      were; ending it a second time is not possible, as it is unregistered. */
  method EndOneOfTwo(a: Name, b: Name, date: string, palette: Palette)
    returns (lines: seq<string>, aRegistered: bool, bEntry: Entry)
    requires a != b
    ensures !aRegistered
    ensures bEntry == Entry(true, "b", 1)
    ensures lines == [FinalLine("a done", false, date, palette), SpinLine("b", 4, date, palette)]
  {
    var log := new Log(palette);
    log.Draft(a, "a", date, true);
    log.Draft(b, "b", date, true);
    assert log.drafts[a] == Entry(true, "a", 0) && log.drafts[b] == Entry(true, "b", 1);
    var _ := log.Spin(b, "b", date, 5);
    assert log.screen == [SpinLine("a", 0, date, palette), SpinLine("b", 4, date, palette)];
    log.EndDraft(a, "a done", false, date);
    aRegistered := a in log.drafts;
    bEntry := log.drafts[b];
    lines := log.screen;
  }
}
