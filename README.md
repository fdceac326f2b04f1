# Log: coloured log lines and animated draft lines

A Dafny model of the `Log` singleton of a chat bot (`structures/utils/log.js`).
`Log` does two things.

- **Formatter.** `error`, `warn` and `info` stamp a message as
  `"[" + colour(timestamp + " " + SEVERITY) + "] " + message`. The timestamp
  is `Date().toString().split(' ').slice(1, 5).join(' ')`. The line is either
  returned or printed as one new console line.
- **Draft registry.** `draft(name, text)` either prints one INFO line, when
  stderr is not a terminal, or registers `{spinning: true, text, draft}`
  under `name` and paints spinner frame 0 on a new line. It then loops: while
  the entry's `spinning` flag is up, it sleeps and repaints
  `frames[i % 10] + " " + text`. `endDraft(name, text, succeed)` lowers the
  flag, sleeps, paints `✔ text` (INFO) or `✖ text` (ERROR) and unregisters
  `name`.

Files:

- `js_text.dfy` (module `JsText`): JavaScript's `split`, `slice` and `join`.
  It proves that `join` undoes `split`, and that `split` undoes the `join` of
  space-free pieces.
- `format.dfy` (module `Format`): severities, the colour palette, the
  timestamp and the formatted line.
- `spinner.dfy` (module `Spinner`): the ten frames, the spinner line and the
  final line.
- `log.dfy` (module `Logger`): class `Log`.
  - `drafts` is a `map<Name, Entry>`.
  - `screen` is the console as a sequence of lines.
  - The draft handle is the index of the draft's own line, so the line a
    draft last painted is `screen[drafts[name].handle]`.
  - `Valid()` says that every live draft owns a line and that no two drafts
    own the same line.
- `scenarios.dfy` (module `Scenarios`): complete lifecycles on a fresh `Log`.

The asynchronous methods are cut at their `await sleep(50)` points into steps
that a caller can interleave:
- `draft` becomes `Draft` (the start), `Poll` (the loop condition),
  `Repaint` (the loop body after the sleep) and `Spin` (the loop).
- `endDraft` becomes `StopSpinning` (before the sleep) and `FinishDraft`
  (after it). `EndDraft` runs the two in order.

The model follows the code as written:
- A second `draft` under a live name silently replaces the entry.
  `Scenarios.DuplicateName` shows the orphaned first loop repainting the new
  line with its own old text.
- `endDraft` (and the loop's lookups) on an unregistered name is a fault,
  modelled as a precondition.
- The timestamp keeps tokens 1 to 4 of `Date().toString()`. Those are month,
  day, year and time: the weekday is dropped and the year is kept
  (`Format.TimestampOfDateString`).
- A non-terminal `draft` registers nothing, so a later `endDraft` for that
  name faults; `EndDraft`'s precondition rules that call out.

## Model

| member | source | states |
|---|---|---|
| JsText.Split | structures/utils/log.js:35 | `split(' ')` always gives at least one piece, and no piece contains the separator |
| JsText.Slice | structures/utils/log.js:35 | `slice(start, end)` clamps both bounds to the length; the result has the clamped length, and element k is element start+k of the input |
| JsText.JoinSplit | structures/utils/log.js:35 | joining the pieces of a split with the same separator gives back the original string |
| JsText.SplitJoin | structures/utils/log.js:35 | splitting the join of a non-empty list of separator-free pieces gives back exactly those pieces |
| JsText.SplitPrefix | structures/utils/log.js:35 | a separator-free prefix is glued onto the first piece of what follows it; the other pieces are unchanged |
| Format.Label | structures/utils/log.js:33-76 | the severity words " ERROR", " WARNING" and " INFO" each start with the space that separates them from the timestamp |
| Format.FormatLine | structures/utils/log.js:34-36 | the line starts with "[", the message follows "] " verbatim as the suffix, and the length is header plus message |
| Format.FormatLineInjective | structures/utils/log.js:68-70 | for a fixed severity and clock reading, two lines are equal if and only if their messages are |
| Format.PlainLine | structures/utils/log.js:68-70 | with colouring switched off the line reads "[" + timestamp + severity word + "] " + message |
| Format.TimestampTokens | structures/utils/log.js:35 | the timestamp drops date token 0 and keeps tokens 1 up to 4 (those that exist), joined by single spaces; a date without a space gives an empty timestamp |
| Format.TimestampAtMostFourTokens | structures/utils/log.js:35 | a timestamp has between one and four space-separated tokens |
| Format.TimestampOfDateString | structures/utils/log.js:35 | for a date string of five space-free fields "weekday month day year time" followed by a space and any text (offset and a zone name that may contain spaces), the timestamp is "month day year time" |
| JsText.SplitJoinThen | structures/utils/log.js:35 | splitting the join of separator-free pieces followed by a separator and any text gives those pieces followed by the pieces of that text |
| Spinner.FrameAt | structures/utils/log.js:12 | the glyph of iteration i is frames[i mod 10]; it is one of the ten frames and is one character long |
| Spinner.FramesDistinct | structures/utils/log.js:12 | the ten frames are pairwise different |
| Spinner.FrameCycle | structures/utils/log.js:95-99 | two loop iterations paint the same glyph if and only if their counters agree modulo 10 |
| Spinner.FrameSuccessor | structures/utils/log.js:95-99 | iteration i+1 paints the frame after the one iteration i painted, wrapping from the last frame to the first |
| Spinner.FinalLineIsNoFrame | structures/utils/log.js:113-117 | a successful final line differs from every spinner line of the same text |
| Logger.Log.constructor | structures/utils/log.js:22-25 | a new Log has an empty registry and has printed nothing |
| Logger.Log.Write | structures/utils/log.js:37-41 | with returnString the formatted line is returned and nothing is printed; without it nothing is returned and exactly that one line is appended to the console |
| Logger.Log.Error | structures/utils/log.js:33-42 | as Write, at ERROR severity (red) |
| Logger.Log.Warn | structures/utils/log.js:50-59 | as Write, at WARNING severity (yellow) |
| Logger.Log.Info | structures/utils/log.js:67-76 | as Write, at INFO severity (green) |
| Logger.Log.Draft | structures/utils/log.js:84-94 | without a terminal: one INFO line of the text is printed and the registry is unchanged. On a terminal: frame 0 is painted on a new line, and `name` maps to a spinning entry with the text and that line. A previous entry for `name` is replaced; all other keys are unchanged |
| Logger.Log.Poll | structures/utils/log.js:95 | the loop condition is the registered entry's spinning flag; the name must be registered |
| Logger.Log.Repaint | structures/utils/log.js:96-99 | the draft's own line is repainted with the glyph of iteration i and the loop's text, whatever the flag says; no other line and no entry changes |
| Logger.Log.Spin | structures/utils/log.js:95-100 | the loop runs only while the flag is up: for a spinning draft, fuel iterations; otherwise none. Afterwards the line shows the glyph of the last iteration and the registry is unchanged |
| Logger.Log.StopSpinning | structures/utils/log.js:111 | the entry's spinning flag is lowered; its text and line stay, as do all other entries and the console |
| Logger.Log.FinishDraft | structures/utils/log.js:112-118 | the draft's line becomes `info("✔ " + text)` on success or `error("✖ " + text)` on failure, and `name` is unregistered; the other drafts keep their entries and lines |
| Logger.Log.EndDraft | structures/utils/log.js:110-119 | requires `name` to be registered. Afterwards `name` is gone and its line holds the final ✔ or ✖ line. Every other entry and its line are unchanged |
| Logger.Instance | structures/utils/log.js:122 | the exported instance starts with an empty registry and an empty console |
| Scenarios.BuildLifecycle | structures/utils/log.js:84-119 | draft, two iterations, a third check, then endDraft lowers the flag while the loop sleeps: the loop's third repaint lands, its next check stops it, the final line is the only line, and the name is unregistered |
| Scenarios.InFlightRepaint | structures/utils/log.js:95-118 | a repaint that was already under way when the flag was lowered lands before the final paint; the final line is what remains |
| Scenarios.NonInteractiveDraft | structures/utils/log.js:86-88 | without a terminal, draft prints exactly one INFO line of its text and registers nothing |
| Scenarios.DuplicateName | structures/utils/log.js:89-99 | a duplicate draft replaces the entry (one live key). The first line stays at frame 0, and the old loop repaints the new line with its own text |
| Scenarios.EndOneOfTwo | structures/utils/log.js:110-119 | ending one of two drafts unregisters it and leaves the other draft's entry and spinner line as they were |

## Left out

- The bot commands (`commands/fun/*.js`) are left out. They only check Discord permissions, call a remote image API and upload the result, with no logic of their own.
- Colouring: `chalk.red`, `chalk.yellow` and `chalk.green` are a `Palette` of three arbitrary string functions. The ANSI codes they add are not modelled.
- The wall clock: each call takes the `Date()` string as a `date` argument.
- The terminal check: `process.stderr.isTTY` is the `isTTY` argument of `Draft`.
- `draftlog`'s terminal rendering is left out. A draft handle is just the index of the line it rewrites.
- `sleep(50)` and the timer queue are left out. Each step between two awaits runs atomically. An interleaving exists only when a caller writes it out, as the scenarios do. The model does not prove that the equal sleeps always put the loop's last repaint before the final paint; `Scenarios.InFlightRepaint` shows that one order.
- Logger.Log.Spin: the spin loop runs at most `fuel` iterations. While the flag stays up, the source loops until a concurrent `endDraft`.
- Logger.Log.Poll: a lookup of an unregistered name is a precondition. The TypeError the source throws (possibly as an unhandled rejection of the `draft` promise) is not modelled.
- The arguments are passed already converted: `msg` stands for the message after `${...}` has turned it into text (callers pass Error objects), and `returnString` and `succeed` are always given explicitly, where the source lets them default to false and true.
- The Promise that `draft` and `endDraft` return carries nothing and is left out.
- Draft names are strings or integers. Non-integer numbers, `NaN` and `-0` as `Map` keys are not modelled.
- Each entry is a value in the map, not a shared object. The source only reaches an entry through `drafts.get(name)`, so no reference to an entry outlives its key.
